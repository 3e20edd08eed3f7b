/**
 * The two record shapes the application stores (src/App.tsx), and the
 * document a key-value entry holds.
 */
module Records {
  import opened Wrappers

  /** The form inputs a price was predicted from. `gender`, `smoker` and `region`
      are free strings in the source; the form only offers the listed codes. */
  datatype Inputs = Inputs(
    age: real,
    bmi: real,
    children: int,
    gender: string,
    smoker: string,
    region: string)

  /** One saved prediction. `timestamp` is the creation instant in milliseconds;
      `predictedPrice` is the integer the prediction form rounds to. */
  datatype PredictionRecord = PredictionRecord(
    id: string,
    timestamp: int,
    inputs: Inputs,
    predictedPrice: int)

  datatype UserProfile = UserProfile(
    name: string,
    email: string,
    phone: string,
    avatar: Option<string>)

  /** The profile the client shows before any profile was loaded or saved. */
  function DefaultProfile(): UserProfile {
    UserProfile("John Doe", "john.doe@example.com", "+62 812 3456 7890", None)
  }

  /** A JSON document held by the key-value table: the server stores whatever
      body a client posts, which is a prediction or a profile. */
  datatype Value = Prediction(record: PredictionRecord) | Profile(profile: UserProfile)

  /** The text `${v.id}` renders to: the record's id, or "undefined" for a
      document that has no `id` field. */
  function IdText(v: Value): string {
    match v
    case Prediction(r) => r.id
    case Profile(_) => "undefined"
  }
}
