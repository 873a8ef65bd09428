/** How a MetaApi failure is handled: the total four-way classification. */
module MetaApiErrors {
  import opened Common

  datatype Kind = FatalAccount | GlobalAuth | NotFound | Transient

  /** A property of the thrown value: missing, a string, or something else. */
  datatype Field = Missing | Text(text: string) | Other

  datatype Details = NoList | Codes(codes: seq<Field>)

  /** The thrown value: reading its properties may itself throw. */
  datatype Thrown =
    | Unreadable
    | Readable(status: Option<int>, code: Field, error: Field, details: Details)

  const FATAL_ACCOUNT_CODES: set<string> :=
    {"E_AUTH", "E_SRV_NOT_FOUND", "ERR_OTP_REQUIRED", "E_PASSWORD_CHANGE_REQUIRED", "E_TRADING_ACCOUNT_DISABLED",
     "E_SERVER_TIMEZONE"}

  function Texts(fields: seq<Field>): seq<string> {
    if fields == [] then []
    else (if fields[0].Text? then [fields[0].text] else []) + Texts(fields[1..])
  }

  function CollectCodes(e: Thrown): seq<string>
    requires e.Readable?
  {
    Texts([e.code, e.error] + match e.details case NoList => [] case Codes(codes) => codes)
  }

  function Classify(e: Thrown): Kind {
    match e
    case Unreadable => Transient
    case Readable(status, _, _, _) =>
      if status == Some(401) then GlobalAuth
      else if status == Some(404) then NotFound
      else if exists c :: c in CollectCodes(e) && c in FATAL_ACCOUNT_CODES then FatalAccount
      else Transient
  }

  lemma {:induction false} TextsMember(fields: seq<Field>, c: string)
    ensures c in Texts(fields) <==> Text(c) in fields
  {
    if fields != [] {
      TextsMember(fields[1..], c);
      assert fields == [fields[0]] + fields[1..];
    }
  }

  /** The value carries one of the codes MetaApi only emits while adding an account. */
  predicate NamesFatalCode(e: Thrown) {
    && e.Readable?
    && exists c :: c in FATAL_ACCOUNT_CODES &&
         (e.code == Text(c) || e.error == Text(c) || (e.details.Codes? && Text(c) in e.details.codes))
  }

  /**
   * An account is condemned exactly when the error names a fatal code and is neither a 401 nor a 404.
   * In particular a bare 400 never condemns one, and a 401 never does whatever it carries.
   */
  lemma FatalExactly(e: Thrown)
    ensures Classify(e) == FatalAccount <==>
            NamesFatalCode(e) && e.status != Some(401) && e.status != Some(404)
    ensures Classify(e) == GlobalAuth <==> e.Readable? && e.status == Some(401)
    ensures Classify(e) == NotFound <==> e.Readable? && e.status == Some(404)
  {
    if e.Readable? {
      var fields := [e.code, e.error] + match e.details case NoList => [] case Codes(codes) => codes;
      forall c ensures c in CollectCodes(e) <==>
          (e.code == Text(c) || e.error == Text(c) || (e.details.Codes? && Text(c) in e.details.codes)) {
        TextsMember(fields, c);
      }
    }
  }
}
