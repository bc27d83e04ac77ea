/** The frontend's bridge to the backend (src/lib/utils/tauri.ts): how a
    requirement is displayed, the closed registry of commands, and the two
    ways of invoking a command over the host transport. */
module Tauri {
  import opened Wrappers
  import opened Functions
  import B = Backend

  // ---------------------------------------------------------------------------
  // Requirement display

  /** What the interface shows for one requirement. */
  datatype RequirementData = RequirementData(ok: bool, key: string, message: Option<string>)

  /** `replaceAll` of one character by another. */
  function ReplaceAll(s: string, from: char, to: char): (r: string)
    ensures |r| == |s|
    ensures forall i :: 0 <= i < |s| ==> r[i] == if s[i] == from then to else s[i]
  {
    if s == [] then [] else [if s[0] == from then to else s[0]] + ReplaceAll(s[1..], from, to)
  }

  /** `getRequirementData`: the requirement is ok exactly when it is met, the
      message is the `NotMet` message and absent otherwise, and the key is shown
      with underscores as spaces and its first character upper-cased. */
  function GetRequirementData(key: string, state: B.RequirementState): (r: RequirementData)
    ensures r.ok <==> state == B.Met
    ensures state == B.Met ==> r.message == None
    ensures state.NotMet? ==> r.message == Some(state.message)
    ensures |r.key| == |key| && '_' !in r.key
    ensures key != [] ==> r.key[0] == ToUpper(if key[0] == '_' then ' ' else key[0])
    ensures forall i :: 1 <= i < |key| ==> r.key[i] == if key[i] == '_' then ' ' else key[i]
  {
    var stateMessage := if state != B.Met then Some(state.message) else None;
    var shown := Capitalised(ReplaceAll(key, '_', ' '));
    assert forall i :: 0 <= i < |shown| ==> shown[i] != '_';
    RequirementData(stateMessage == None, shown, stateMessage)
  }

  /** The key of the unmet example with its underscore shown as a space. */
  lemma SpacedMw3Path()
    ensures ReplaceAll("mw3_path", '_', ' ') == "mw3 path"
  {
    var spaced := ReplaceAll("mw3_path", '_', ' ');
    assert spaced[0] == 'm' && spaced[1] == 'w' && spaced[2] == '3' && spaced[3] == ' ';
    assert spaced[4] == 'p' && spaced[5] == 'a' && spaced[6] == 't' && spaced[7] == 'h';
  }

  /** The key of the unmet example as it is shown. */
  lemma ShownMw3Path()
    ensures Capitalised(ReplaceAll("mw3_path", '_', ' ')) == "Mw3 path"
  {
    SpacedMw3Path();
    assert ToUpper('m') == 'M';
  }

  /** An unmet requirement under a key with an underscore. */
  lemma RequirementDataUnmetExample()
    ensures GetRequirementData("mw3_path", B.NotMet("X")) == RequirementData(false, "Mw3 path", Some("X"))
  {
    ShownMw3Path();
  }

  /** A met requirement under a plain key. */
  lemma RequirementDataMetExample()
    ensures GetRequirementData("steam", B.Met) == RequirementData(true, "Steam", None)
  {
  }

  // ---------------------------------------------------------------------------
  // The command registry

  /** The schemas the registry uses for arguments and results. */
  datatype Schema = Void | OsTypeLiteral | RequirementsStruct | Boolean

  /** The registry's commands; no other command can be invoked. */
  datatype Command = GetOperatingSystemType | GetRequirements | IsSetup {

    /** The name sent to the backend, one of the registry's three keys. */
    function Name(): (r: string)
      ensures r == "get_operating_system_type" || r == "get_requirements" || r == "is_setup"
    {
      match this
      case GetOperatingSystemType => "get_operating_system_type"
      case GetRequirements => "get_requirements"
      case IsSetup => "is_setup"
    }

    /** Every command takes no arguments. */
    function Args(): (s: Schema)
      ensures s == Void
    {
      Void
    }

    /** The declared result schema; every command returns a value. */
    function Returns(): (s: Schema)
      ensures s != Void
      ensures s == Boolean <==> this == IsSetup
    {
      match this
      case GetOperatingSystemType => OsTypeLiteral
      case GetRequirements => RequirementsStruct
      case IsSetup => Boolean
    }
  }

  /** The command registered under a name, if any. */
  function CommandNamed(name: string): (r: Option<Command>)
    ensures r.Some? ==> r.value.Name() == name
    ensures r.None? ==> forall c: Command :: c.Name() != name
  {
    if name == "get_operating_system_type" then Some(GetOperatingSystemType)
    else if name == "get_requirements" then Some(GetRequirements)
    else if name == "is_setup" then Some(IsSetup)
    else None
  }

  /** Every command is found under its own name: names identify commands. */
  lemma CommandNamedRoundTrip(c: Command)
    ensures CommandNamed(c.Name()) == Some(c)
  {
  }

  /** A value the backend answers with. */
  datatype Value =
    | OsTypeValue(os: B.OsType)
    | RequirementsValue(requirements: B.Requirements)
    | BoolValue(flag: bool)

  /** Whether a value has the shape a schema declares: no value is of the `Void`
      schema, and each other schema admits exactly one kind of value. */
  predicate Conforms(v: Value, schema: Schema)
    ensures Conforms(v, schema) ==> schema != Void
    ensures Conforms(v, schema) && schema == OsTypeLiteral <==> v.OsTypeValue? && schema == OsTypeLiteral
    ensures Conforms(v, schema) && schema == Boolean <==> v.BoolValue? && schema == Boolean
  {
    match schema
    case Void => false
    case OsTypeLiteral => v.OsTypeValue?
    case RequirementsStruct => v.RequirementsValue?
    case Boolean => v.BoolValue?
  }

  /** A value of the operating-system command's schema is one of its three literals. */
  lemma OsTypeLiteralValues(v: Value)
    requires Conforms(v, GetOperatingSystemType.Returns())
    ensures var name := B.GetOperatingSystemType(v.os);
            name == "Linux" || name == "MacOS" || name == "Windows"
  {
  }

  /** How the backend handles each registered command on a given host. */
  function Handle(c: Command, host: B.Host): (v: Value)
    ensures Conforms(v, c.Returns())
  {
    match c
    case GetOperatingSystemType => OsTypeValue(host.target)
    case GetRequirements => RequirementsValue(B.GetRequirements(host.info, host.target, host.steamDir))
    case IsSetup => BoolValue(B.IsSetup())
  }

  // ---------------------------------------------------------------------------
  // The transport and the two invocation variants

  /** The argument object of a command (property names to serialised values). */
  type ArgObject = map<string, string>

  /** A request as the transport receives it: the command name alone, or the
      name with a copy of the argument object. */
  datatype Request = NameOnly(command: Command) | WithArgs(command: Command, args: ArgObject)

  /** The reason the transport gives for a failed call. */
  type Cause = string

  /** The request both variants send: the argument object goes along only when
      one is supplied. */
  function RequestFor(fn: Command, args: Option<ArgObject>): (r: Request)
    ensures r.command == fn
    ensures r.WithArgs? <==> args.Some?
    ensures r.WithArgs? ==> r.args == args.value
  {
    if args.Some? then WithArgs(fn, args.value) else NameOnly(fn)
  }

  /** Whether a reply carries a failure or a value of the command's declared schema. */
  predicate Answers(reply: Result<Value, Cause>, c: Command) {
    reply.Success? ==> Conforms(reply.value, c.Returns())
  }

  /** Replies that the frontend's `as R` cast takes on trust: every value has the
      declared shape of the command it answers. */
  ghost predicate TrustedReplies(respond: (nat, Request) -> Result<Value, Cause>) {
    forall n: nat, req: Request :: Answers(respond(n, req), req.command)
  }

  /** A transport whose successful replies are the backend handlers' answers is
      trusted rightly, whatever calls it rejects. */
  lemma HostBackendTrusted(host: B.Host, respond: (nat, Request) -> Result<Value, Cause>)
    requires forall n: nat, req: Request :: respond(n, req).Success? ==> respond(n, req).value == Handle(req.command, host)
    ensures TrustedReplies(respond)
  {
    forall n: nat, req: Request
      ensures Answers(respond(n, req), req.command)
    {
      var v := Handle(req.command, host);
    }
  }

  /** The host's `invoke`: the reply to the n-th call is `respond(n, request)`,
      and `sent` records the requests in the order they were issued. */
  class Transport {
    const respond: (nat, Request) -> Result<Value, Cause>
    var sent: seq<Request>

    constructor (respond: (nat, Request) -> Result<Value, Cause>)
      ensures this.respond == respond && sent == []
    {
      this.respond := respond;
      sent := [];
    }

    ghost predicate Trusted() {
      TrustedReplies(respond)
    }

    /** One call to the backend. */
    method Invoke(req: Request) returns (reply: Result<Value, Cause>)
      modifies this
      ensures sent == old(sent) + [req]
      ensures reply == respond(|old(sent)|, req)
    {
      reply := respond(|sent|, req);
      sent := sent + [req];
    }
  }

  /** The failure the one-argument `Effect.tryPromise` produces: an
      `UnknownException` around the rejection reason. */
  datatype UnknownException = UnknownException(error: Cause)

  /** `InvokeError`: the command that failed (its `function` field) and the
      failure the effect carried. */
  datatype InvokeError = InvokeError(command: Command, error: UnknownException)

  /** `Effect.tryPromise(() => invoke(...))`: a value passes unchanged, a
      rejection becomes an `UnknownException` around its reason. */
  function TryPromise(reply: Result<Value, Cause>): (r: Result<Value, UnknownException>)
    ensures reply.Success? <==> r.Success?
    ensures reply.Success? ==> r.value == reply.value
    ensures reply.Failure? ==> r.error.error == reply.error
  {
    match reply
    case Success(v) => Success(v)
    case Failure(e) => Failure(UnknownException(e))
  }

  /** `mapError` of the structured variant: a value passes unchanged, a failure
      is wrapped with the command that was invoked. */
  function MapError(fn: Command, effect: Result<Value, UnknownException>): (r: Result<Value, InvokeError>)
    ensures effect.Success? <==> r.Success?
    ensures effect.Success? ==> r.value == effect.value
    ensures effect.Failure? ==> r.error.command == fn && r.error.error == effect.error
  {
    match effect
    case Success(v) => Success(v)
    case Failure(e) => Failure(InvokeError(fn, e))
  }

  /** Dropping the command from an `InvokeError` and the exception around its cause. */
  function Unwrapped(r: Result<Value, InvokeError>): Result<Value, Cause> {
    match r
    case Success(v) => Success(v)
    case Failure(e) => Failure(e.error.error)
  }

  /** Wrapping loses nothing: the transport's original outcome is recovered from
      the structured variant's result. */
  lemma MapErrorRoundTrip(fn: Command, reply: Result<Value, Cause>)
    ensures Unwrapped(MapError(fn, TryPromise(reply))) == reply
  {
  }

  /** `safeInvoke`: exactly one call; the reply is returned unchanged, a value as
      it came and a failure with its own cause. */
  method SafeInvoke(t: Transport, fn: Command, args: Option<ArgObject>) returns (r: Result<Value, Cause>)
    modifies t
    ensures t.sent == old(t.sent) + [RequestFor(fn, args)]
    ensures r == t.respond(|old(t.sent)|, RequestFor(fn, args))
    ensures t.Trusted() ==> Answers(r, fn)
  {
    if args.Some? {
      r := t.Invoke(WithArgs(fn, args.value));
    } else {
      r := t.Invoke(NameOnly(fn));
    }
  }

  /** `effectfulInvoke`, run: exactly one call; a value comes back unchanged and a
      rejection becomes an `InvokeError` naming the command and holding the
      `UnknownException` around the rejection reason. */
  method EffectfulInvoke(t: Transport, fn: Command, args: Option<ArgObject>) returns (r: Result<Value, InvokeError>)
    modifies t
    ensures t.sent == old(t.sent) + [RequestFor(fn, args)]
    ensures r == MapError(fn, TryPromise(t.respond(|old(t.sent)|, RequestFor(fn, args))))
  {
    var reply;
    if args.Some? {
      reply := t.Invoke(WithArgs(fn, args.value));
    } else {
      reply := t.Invoke(NameOnly(fn));
    }
    r := MapError(fn, TryPromise(reply));
  }
}
