/**
 * What the two tools take and give back. Arguments are validated against a
 * model with string fields and `extra = 'forbid'` before anything else runs;
 * a validation failure propagates out of the tool as an exception, while any
 * failure after that point is returned as an error envelope.
 */
module ToolInput {
  import opened Common
  import opened FileSystem
  import opened Parsed

  /** An argument value: a string, or anything that does not validate as one. */
  datatype Value = Str(s: string) | NonStr

  /** The keyword arguments a tool is called with. */
  type Params = map<string, Value>

  /** An input model: each field name with its default, `None` for a required field. */
  type Schema = map<string, Option<string>>

  /** One complaint of the validator. */
  datatype Issue = Missing(field: string) | NotAString(field: string) | ExtraForbidden(field: string)

  datatype Validated = Accepted(values: map<string, string>) | Rejected(issues: set<Issue>)

  /** The complaints about `params`: every missing required field, non-string value and unknown key. */
  function Issues(schema: Schema, params: Params): set<Issue> {
    (set n | n in schema && schema[n].None? && n !in params :: Missing(n))
    + (set n | n in schema && n in params && params[n].NonStr? :: NotAString(n))
    + (set n | n in params && n !in schema :: ExtraForbidden(n))
  }

  /** Every fault of the arguments is among the complaints. */
  lemma IssuesComplete(schema: Schema, params: Params)
    ensures forall n :: n in schema && schema[n].None? && n !in params ==> Missing(n) in Issues(schema, params)
    ensures forall n :: n in schema && n in params && params[n].NonStr? ==> NotAString(n) in Issues(schema, params)
    ensures forall n :: n in params && n !in schema ==> ExtraForbidden(n) in Issues(schema, params)
  {
  }

  /** Every complaint names a real fault of the arguments. */
  lemma IssuesSound(schema: Schema, params: Params, i: Issue)
    requires i in Issues(schema, params)
    ensures i.Missing? ==> i.field in schema && schema[i.field].None? && i.field !in params
    ensures i.NotAString? ==> i.field in schema && i.field in params && params[i.field].NonStr?
    ensures i.ExtraForbidden? ==> i.field in params && i.field !in schema
  {
  }

  /**
   * `Model(**params)`: all complaints at once, or every field's value, taken
   * from the arguments when given and from the default otherwise.
   */
  function Validate(schema: Schema, params: Params): (r: Validated)
    ensures r.Accepted? <==>
      && (forall n :: n in schema && schema[n].None? ==> n in params)
      && (forall n :: n in params ==> n in schema && params[n].Str?)
    ensures r.Accepted? ==> r.values.Keys == schema.Keys
    ensures r.Accepted? ==> forall n :: n in params ==> r.values[n] == params[n].s
    ensures r.Accepted? ==> forall n :: n in schema && n !in params ==> schema[n] == Some(r.values[n])
    ensures r.Rejected? ==> r.issues != {} && r.issues == Issues(schema, params)
  {
    var issues := Issues(schema, params);
    IssuesComplete(schema, params);
    if issues == {} then
      Accepted(map n | n in schema :: if n in params && params[n].Str? then params[n].s else schema[n].GetOr(""))
    else
      Rejected(issues)
  }

  /** What a tool's work produced: a parsed document, or a listing with its length. */
  datatype Payload = DocumentData(document: Document) | Listing(files: seq<DirEntry>, count: nat)

  /** `{'status': 'success', 'data': ...}` or `{'status': 'error', 'error': ...}`. */
  datatype Envelope = Success(data: Payload) | Failure(error: string)

  /** A tool call returns an envelope, or raises the validator's complaints. */
  datatype Outcome = Returned(envelope: Envelope) | Raised(issues: set<Issue>)

  /** The outcome of a call together with the local file system it leaves behind. */
  datatype Run = Run(outcome: Outcome, fs: Fs)
}
