/** The shapes of a submission as the two pages exchange it through the
    `submissions` collection: what the text-analysis page writes, and what the
    progress page reads back. */
module Records {
  import opened Wrappers

  /** An instant, as a Firestore timestamp converted with `toDate()`. */
  type Time = int

  /** One suggestion or strength: a label and the colour class shown beside it. */
  datatype Item = Item(text: string, color: string)

  datatype Readability = Readability(score: real, level: string)

  /** What the scorer produces for one text. */
  datatype Analysis = Analysis(
    aiInfluence: real,
    score: real,
    suggestions: seq<Item>,
    strengths: seq<Item>,
    readability: Readability)

  /** The fields handed to the store when a submission is created. The
      `createdAt` field is the server-timestamp sentinel: the store fills it. */
  datatype NewSubmission = NewSubmission(
    userId: string,
    title: string,
    text: string,
    aiInfluence: real,
    score: real,
    readabilityScore: real,
    suggestions: seq<Item>,
    strengths: seq<Item>)

  /** The data of a stored document as read back; any field may be missing. */
  datatype DocData = DocData(
    userId: Option<string>,
    title: Option<string>,
    text: Option<string>,
    createdAt: Option<Time>,
    updatedAt: Option<Time>,
    aiInfluence: Option<real>,
    score: Option<real>,
    readabilityScore: Option<real>,
    suggestions: Option<seq<Item>>,
    strengths: Option<seq<Item>>)

  datatype Doc = Doc(id: string, data: DocData)

  /** The document the store holds after creating `rec` under `id` at server
      time `at`: every written field is present and no revision has happened. */
  function Created(id: string, at: Time, rec: NewSubmission): (doc: Doc)
  {
    Doc(id, DocData(
      Some(rec.userId), Some(rec.title), Some(rec.text),
      Some(at), None,
      Some(rec.aiInfluence), Some(rec.score), Some(rec.readabilityScore),
      Some(rec.suggestions), Some(rec.strengths)))
  }
}
