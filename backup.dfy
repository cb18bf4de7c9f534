/** Importing a backup file, as the popup and the options page both do it:
    the parsed JSON value is accepted only when it has a truthy `version` and
    a truthy `envs`; otherwise the stored document is left alone. */
module Backup {
  import opened Js

  /** How an import ends: the file did not parse (or parsed to `null`, whose
      properties cannot be read, which the same handler catches), the value
      lacks a truthy `version` or `envs`, or the value is accepted. */
  datatype ImportOutcome = ParseError | InvalidFormat | Accepted(value: Json)

  /** The import check: `importedData.version && importedData.envs`, with a
      parse failure given as `None`. */
  function ImportDecision(parsed: Option<Json>): (r: ImportOutcome)
    ensures r.ParseError? <==> parsed.None? || parsed.value.JNull?
    ensures r.Accepted? <==>
      && parsed.Some? && parsed.value.JObject?
      && Truthy(Property(parsed.value, "version"))
      && Truthy(Property(parsed.value, "envs"))
    ensures r.Accepted? ==> r.value == parsed.value
  {
    match parsed
    case None => ParseError
    case Some(v) =>
      if v.JNull? then ParseError
      else if Truthy(Property(v, "version")) && Truthy(Property(v, "envs")) then Accepted(v)
      else InvalidFormat
  }

  /** The stored document after an import: the accepted value, or what was
      stored before. */
  function StoredAfterImport(stored: Option<Json>, parsed: Option<Json>): Option<Json> {
    match ImportDecision(parsed)
    case Accepted(v) => Some(v)
    case _ => stored
  }

  /** An object with a non-zero numeric `version` and an array `envs` is
      stored as it is. */
  lemma ImportAcceptsDocument(stored: Option<Json>, fields: map<string, Json>)
    requires "version" in fields && fields["version"].JNumber? && fields["version"].n != 0.0
    requires "envs" in fields && fields["envs"].JArray?
    ensures StoredAfterImport(stored, Some(JObject(fields))) == Some(JObject(fields))
  {
  }

  /** A file that does not parse, or a value without a truthy `version` or
      `envs`, leaves the stored document untouched. */
  lemma ImportRejectsLeaveStore(stored: Option<Json>, parsed: Option<Json>)
    requires parsed.None? || !parsed.value.JObject?
      || !Truthy(Property(parsed.value, "version")) || !Truthy(Property(parsed.value, "envs"))
    ensures StoredAfterImport(stored, parsed) == stored
    ensures !ImportDecision(parsed).Accepted?
  {
  }
}
