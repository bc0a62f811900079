/** The remote dispatcher: a tool call goes to the bridge at once, or becomes a detached job. */
module Dispatcher {
  import opened JsonValues
  import opened Protocol
  import opened Results

  datatype Plan =
    | Direct
    | Detached(args: Json, timeoutSeconds: int)

  /** All the members of an object that are meant for the tool, and none that is meant for the server. */
  ghost predicate IsCleaned(args: Json, cleaned: Json)
  {
    && args.Obj? && cleaned.Obj?
    && forall f :: f in cleaned.fields <==>
         f in args.fields && f.key != "async" && f.key != "job_timeout_seconds" && f.key != "job_timeout_ms"
  }

  function Clamp(n: int, low: int, high: int): int
  {
    if n < low then low else if n > high then high else n
  }

  function BoolOr(j: Json, key: string, default: bool): Parsed<bool>
  {
    match Member(j, key)
    case None => Message(default)
    case Some(Bool(b)) => Message(b)
    case _ => TypeError
  }

  function WantsAsync(args: Json): (r: Parsed<bool>)
    ensures r == Message(true) ==> args.Obj?
  {
    if args.Obj? then BoolOr(args, "async", false) else Message(false)
  }

  /** Takes the server's members step by step off a copy of the arguments. */
  method TakeServerKeys(args: Json) returns (cleaned: Json, seconds: Parsed<int>)
    requires args.Obj?
    ensures IsCleaned(args, cleaned)
    ensures seconds == IntOr(args, "job_timeout_seconds", 3600)
  {
    cleaned := Erase(args, "async");
    LookupWithout(args.fields, "async", "job_timeout_seconds");
    seconds := IntOr(cleaned, "job_timeout_seconds", 3600);
    cleaned := Erase(cleaned, "job_timeout_seconds");
    cleaned := Erase(cleaned, "job_timeout_ms");
  }

  /** The tool's own arguments, and a time-out within one day: an hour when none is given. */
  ghost predicate IsJobFor(args: Json, plan: Plan)
  {
    && plan.Detached? && IsCleaned(args, plan.args)
    && exists n :: SaysInt(Member(args, "job_timeout_seconds"), 3600, n)
         && plan.timeoutSeconds == if n < 1 then 1 else if n > 86400 then 86400 else n
  }

  /** Decides between the two: a call goes to the bridge when `async` is absent or false, and becomes
      a job when it is true. An `async` that is no boolean, or a time-out that is no number, throws,
      which the caller reports as an error. */
  method MakePlan(args: Json) returns (plan: Parsed<Plan>)
    ensures plan == Message(Direct) <==> Member(args, "async").None? || Member(args, "async") == Some(Bool(false))
    ensures plan.Message? && plan.value.Detached? <==>
              && Member(args, "async") == Some(Bool(true))
              && exists n :: SaysInt(Member(args, "job_timeout_seconds"), 3600, n)
    ensures plan.Message? && plan.value.Detached? ==> IsJobFor(args, plan.value)
    ensures !plan.Invalid?
  {
    IntIsRead(args, "job_timeout_seconds", 3600);
    var wanted := WantsAsync(args);
    if !wanted.Message? {
      return TypeError;
    }
    if !wanted.value {
      return Message(Direct);
    }
    var cleaned, seconds := TakeServerKeys(args);
    plan := if seconds.Message? then Message(Detached(cleaned, Clamp(seconds.value, 1, 86400))) else TypeError;
  }
}
