/**
  * The email record passed around as a dict (`email_data`) and the JSON values
  * the language model's replies are parsed into.
  */
module Mail {
  import opened Wrappers

  /** `email_data`: sender, subject and body (a missing key reads as ''), the
      optional id, and the classification written into it by `process_email`. */
  datatype Email = Email(
    sender: string,
    subject: string,
    body: string,
    emailId: Option<string>,
    classification: Option<string>,
    confidence: Option<real>)

  /** The text under which an email is embedded and searched:
      "From: <sender>\nSubject: <subject>\nBody: <body>". */
  function EmailText(e: Email): string {
    "From: " + e.sender + "\nSubject: " + e.subject + "\nBody: " + e.body
  }

  /** A value produced by `json.loads`. */
  datatype Json =
    | JNull
    | JBool(b: bool)
    | JNum(n: real)
    | JStr(s: string)
    | JArr(items: seq<Json>)
    | JObj(fields: map<string, Json>)
}
