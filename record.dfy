/**
 * The UNSW-NB15 flow record (the numeric columns of UnswNb15Item) and the
 * fixed-order feature vector the batcher reads from it.
 */
module Record {

  /** One network-flow record; every numeric column of the dataset, in declaration order. */
  datatype Item = Item(
    dur: real, spkts: real, dpkts: real, sbytes: real, dbytes: real, rate: real, sttl: real,
    dttl: real, sload: real, dload: real, sloss: real, dloss: real, sinpkt: real, dinpkt: real,
    sjit: real, djit: real, swin: real, dwin: real, tcprtt: real, stcpb: real, dtcpb: real,
    synack: real, ackdat: real, smean: real, dmean: real, transDepth: real,
    responseBodyLen: real, ctSrvSrc: real, ctStateTtl: real, ctFlwHttpMthd: real,
    ctSrcLtm: real, ctSrvDst: real, isFtpLogin: real, ctFtpCmd: real, ctDstLtm: real,
    ctSrcDportLtm: real, ctDstSrcLtm: real, classLabel: real)

  /** Names of the numeric columns, one tag per field of Item. */
  datatype Field =
    Dur | Spkts | Dpkts | Sbytes | Dbytes | Rate | Sttl | Dttl | Sload | Dload | Sloss |
    Dloss | Sinpkt | Dinpkt | Sjit | Djit | Swin | Dwin | Tcprtt | Stcpb | Dtcpb | Synack |
    Ackdat | Smean | Dmean | TransDepth | ResponseBodyLen | CtSrvSrc | CtStateTtl |
    CtFlwHttpMthd | CtSrcLtm | CtSrvDst | IsFtpLogin | CtFtpCmd | CtDstLtm | CtSrcDportLtm |
    CtDstSrcLtm | Label

  function FieldValue(item: Item, f: Field): real
  {
    match f
    case Dur => item.dur
    case Spkts => item.spkts
    case Dpkts => item.dpkts
    case Sbytes => item.sbytes
    case Dbytes => item.dbytes
    case Rate => item.rate
    case Sttl => item.sttl
    case Dttl => item.dttl
    case Sload => item.sload
    case Dload => item.dload
    case Sloss => item.sloss
    case Dloss => item.dloss
    case Sinpkt => item.sinpkt
    case Dinpkt => item.dinpkt
    case Sjit => item.sjit
    case Djit => item.djit
    case Swin => item.swin
    case Dwin => item.dwin
    case Tcprtt => item.tcprtt
    case Stcpb => item.stcpb
    case Dtcpb => item.dtcpb
    case Synack => item.synack
    case Ackdat => item.ackdat
    case Smean => item.smean
    case Dmean => item.dmean
    case TransDepth => item.transDepth
    case ResponseBodyLen => item.responseBodyLen
    case CtSrvSrc => item.ctSrvSrc
    case CtStateTtl => item.ctStateTtl
    case CtFlwHttpMthd => item.ctFlwHttpMthd
    case CtSrcLtm => item.ctSrcLtm
    case CtSrvDst => item.ctSrvDst
    case IsFtpLogin => item.isFtpLogin
    case CtFtpCmd => item.ctFtpCmd
    case CtDstLtm => item.ctDstLtm
    case CtSrcDportLtm => item.ctSrcDportLtm
    case CtDstSrcLtm => item.ctDstSrcLtm
    case Label => item.classLabel
  }

  /** Number of entries in a feature vector (the model's input width). */
  const FeatureCount: nat := 38

  /**
   * The columns the batcher reads, in the order it reads them. The source
   * reads swin twice (positions 17 and 23, counting from 1), never reads dwin,
   * and reads the label last.
   */
  const FeatureOrder: seq<Field> := [
      Dur, Spkts, Dpkts, Sbytes, Dbytes, Rate, Sttl, Dttl, Sload, Dload, Sloss, Dloss, Sinpkt,
      Dinpkt, Sjit, Djit, Swin, Stcpb, Dtcpb, Tcprtt, Synack, Ackdat, Swin, Smean, Dmean,
      TransDepth, ResponseBodyLen, CtSrvSrc, CtStateTtl, CtDstLtm, CtSrcDportLtm, CtDstSrcLtm,
      IsFtpLogin, CtFtpCmd, CtFlwHttpMthd, CtSrcLtm, CtSrvDst, Label
    ]

  /** The feature vector of one record, as the batcher builds it before stacking. */
  function Features(item: Item): (v: seq<real>)
    ensures |v| == FeatureCount == |FeatureOrder|
  {
    [
      item.dur, item.spkts, item.dpkts, item.sbytes, item.dbytes, item.rate, item.sttl,
      item.dttl, item.sload, item.dload, item.sloss, item.dloss, item.sinpkt, item.dinpkt,
      item.sjit, item.djit, item.swin, item.stcpb, item.dtcpb, item.tcprtt, item.synack,
      item.ackdat, item.swin, item.smean, item.dmean, item.transDepth, item.responseBodyLen,
      item.ctSrvSrc, item.ctStateTtl, item.ctDstLtm, item.ctSrcDportLtm, item.ctDstSrcLtm,
      item.isFtpLogin, item.ctFtpCmd, item.ctFlwHttpMthd, item.ctSrcLtm, item.ctSrvDst,
      item.classLabel
    ]
  }

  /** Entry k of the feature vector is the column FeatureOrder[k]. */
  lemma FeaturesFollowOrder(item: Item)
    ensures forall k :: 0 <= k < FeatureCount ==> Features(item)[k] == FieldValue(item, FeatureOrder[k])
  {
    forall k | 0 <= k < FeatureCount
      ensures Features(item)[k] == FieldValue(item, FeatureOrder[k])
    {
      if k < 10 {
        FeaturesFollowOrderFrom0(item, k);
      } else if k < 20 {
        FeaturesFollowOrderFrom10(item, k);
      } else if k < 30 {
        FeaturesFollowOrderFrom20(item, k);
      } else {
        FeaturesFollowOrderFrom30(item, k);
      }
    }
  }

  // The four lemmas below each cover one block of positions; one lemma over all
  // 38 positions at once is too large a case analysis for the solver.

  lemma FeaturesFollowOrderFrom0(item: Item, k: nat)
    requires 0 <= k < 10
    ensures Features(item)[k] == FieldValue(item, FeatureOrder[k])
  {
  }

  lemma FeaturesFollowOrderFrom10(item: Item, k: nat)
    requires 10 <= k < 20
    ensures Features(item)[k] == FieldValue(item, FeatureOrder[k])
  {
  }

  lemma FeaturesFollowOrderFrom20(item: Item, k: nat)
    requires 20 <= k < 30
    ensures Features(item)[k] == FieldValue(item, FeatureOrder[k])
  {
  }

  lemma FeaturesFollowOrderFrom30(item: Item, k: nat)
    requires 30 <= k < 38
    ensures Features(item)[k] == FieldValue(item, FeatureOrder[k])
  {
  }

  /** Where the distinguished columns sit in the feature vector. */
  lemma FeatureLandmarks(item: Item)
    ensures Features(item)[0] == item.dur
    ensures Features(item)[FeatureCount - 1] == item.classLabel
    ensures Features(item)[16] == Features(item)[22] == item.swin
  {
  }

  /** swin is read at exactly two positions, 17 and 23 counting from 1. */
  lemma SwinReadTwice(k: nat)
    requires k < FeatureCount
    ensures FeatureOrder[k] == Swin <==> k == 16 || k == 22
  {
  }

  /** dwin is never read; every other numeric column is. */
  lemma FeatureCoverage(f: Field)
    ensures f in FeatureOrder <==> f != Dwin
  {
    match f
    case Dur => assert FeatureOrder[0] == Dur;
    case Spkts => assert FeatureOrder[1] == Spkts;
    case Dpkts => assert FeatureOrder[2] == Dpkts;
    case Sbytes => assert FeatureOrder[3] == Sbytes;
    case Dbytes => assert FeatureOrder[4] == Dbytes;
    case Rate => assert FeatureOrder[5] == Rate;
    case Sttl => assert FeatureOrder[6] == Sttl;
    case Dttl => assert FeatureOrder[7] == Dttl;
    case Sload => assert FeatureOrder[8] == Sload;
    case Dload => assert FeatureOrder[9] == Dload;
    case Sloss => assert FeatureOrder[10] == Sloss;
    case Dloss => assert FeatureOrder[11] == Dloss;
    case Sinpkt => assert FeatureOrder[12] == Sinpkt;
    case Dinpkt => assert FeatureOrder[13] == Dinpkt;
    case Sjit => assert FeatureOrder[14] == Sjit;
    case Djit => assert FeatureOrder[15] == Djit;
    case Swin => assert FeatureOrder[16] == Swin;
    case Dwin =>
    case Tcprtt => assert FeatureOrder[19] == Tcprtt;
    case Stcpb => assert FeatureOrder[17] == Stcpb;
    case Dtcpb => assert FeatureOrder[18] == Dtcpb;
    case Synack => assert FeatureOrder[20] == Synack;
    case Ackdat => assert FeatureOrder[21] == Ackdat;
    case Smean => assert FeatureOrder[23] == Smean;
    case Dmean => assert FeatureOrder[24] == Dmean;
    case TransDepth => assert FeatureOrder[25] == TransDepth;
    case ResponseBodyLen => assert FeatureOrder[26] == ResponseBodyLen;
    case CtSrvSrc => assert FeatureOrder[27] == CtSrvSrc;
    case CtStateTtl => assert FeatureOrder[28] == CtStateTtl;
    case CtFlwHttpMthd => assert FeatureOrder[34] == CtFlwHttpMthd;
    case CtSrcLtm => assert FeatureOrder[35] == CtSrcLtm;
    case CtSrvDst => assert FeatureOrder[36] == CtSrvDst;
    case IsFtpLogin => assert FeatureOrder[32] == IsFtpLogin;
    case CtFtpCmd => assert FeatureOrder[33] == CtFtpCmd;
    case CtDstLtm => assert FeatureOrder[29] == CtDstLtm;
    case CtSrcDportLtm => assert FeatureOrder[30] == CtSrcDportLtm;
    case CtDstSrcLtm => assert FeatureOrder[31] == CtDstSrcLtm;
    case Label => assert FeatureOrder[37] == Label;
  }

  /** The feature vector does not depend on dwin. */
  lemma FeaturesIgnoreDwin(item: Item, w: real)
    ensures Features(item.(dwin := w)) == Features(item)
  {
  }
}
