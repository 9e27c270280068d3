/** The records that the capture page and the analysis edge function exchange. */
module Records {

  import opened Common

  /** The structured result of one analysis, as the classifier's tool call
      returns it. The scores are whatever the classifier sent: nothing on the
      way bounds them to 0..100. */
  datatype AnalysisResult = AnalysisResult(
    overallScore: int,
    densityScore: int,
    hairlineScore: int,
    crownScore: int,
    aiSummary: string,
    alertTriggered: bool,
    comparisonNotes: Option<string>)

  /** The four scores of the newest earlier session. Their columns are nullable,
      so each may be absent. */
  datatype PreviousScores = PreviousScores(
    overall: Option<int>,
    density: Option<int>,
    hairline: Option<int>,
    crown: Option<int>)

  /** One entry of the `photoUrls` list: a signed URL and the angle it shows. */
  datatype PhotoRef = PhotoRef(url: string, angle: string)
}
