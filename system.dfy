/** The frontend's status store (src/lib/stores/System.svelte.ts): the last known
    operating system, requirements, connected gamepads and setup flag, and the
    refresh that fills them in from the backend. */
module SystemStore {
  import opened Wrappers
  import B = Backend
  import opened Tauri

  /** A connected gamepad as the browser's Gamepad API reports it. */
  datatype Gamepad = Gamepad(id: string, index: nat)

  /** `_type`: a reported operating system, or "Unknown" before the first report. */
  datatype OsKind = Unknown | Known(os: B.OsType)

  /** The store's four fields at one moment. */
  datatype Status = Status(
    osType: OsKind,
    requirements: Option<B.Requirements>,
    gamepads: seq<Gamepad>,
    setup: Option<bool>)

  /** What one refresh does: the fields afterwards, the requests it issued, and
      how it ended. */
  datatype RefreshRun = RefreshRun(status: Status, issued: seq<Request>, result: Result<(), Cause>)

  /** The three requests of a refresh, in the order they are issued. */
  const Steps: seq<Request> := [NameOnly(GetOperatingSystemType), NameOnly(GetRequirements), NameOnly(Command.IsSetup)]

  /** Every request of a refresh is the command name alone, as `safeInvoke`
      sends it without arguments, and no command is asked twice. */
  lemma {:induction false} StepsSendNoArgs()
    ensures |Steps| == 3
    ensures forall i :: 0 <= i < |Steps| ==>
              Steps[i] == RequestFor(Steps[i].command, None)
    ensures forall i, j :: 0 <= i < j < |Steps| ==> Steps[i].command != Steps[j].command
    ensures Steps[0].command == GetOperatingSystemType && Steps[1].command == GetRequirements
            && Steps[2].command == Command.IsSetup
  {
  }

  /** `refresh` given the three replies the backend would give: each step
      overwrites its field as soon as its reply is a value; the first failure
      ends the refresh with that cause, keeping what earlier steps wrote and
      leaving its own and later fields as they were. */
  function Refreshed(s: Status, osReply: Result<Value, Cause>, requirementsReply: Result<Value, Cause>,
                     setupReply: Result<Value, Cause>): (r: RefreshRun)
    requires Answers(osReply, GetOperatingSystemType)
    requires Answers(requirementsReply, GetRequirements)
    requires Answers(setupReply, Command.IsSetup)
    ensures r.status.gamepads == s.gamepads
    ensures 1 <= |r.issued| <= 3 && r.issued == Steps[..|r.issued|]
    ensures |r.issued| >= 2 <==> osReply.Success?
    ensures |r.issued| == 3 <==> osReply.Success? && requirementsReply.Success?
    ensures r.status.osType == if osReply.Success? then Known(osReply.value.os) else s.osType
    ensures r.status.requirements ==
            if osReply.Success? && requirementsReply.Success?
            then Some(requirementsReply.value.requirements) else s.requirements
    ensures r.status.setup ==
            if osReply.Success? && requirementsReply.Success? && setupReply.Success?
            then Some(setupReply.value.flag) else s.setup
    ensures r.result.Success? <==> osReply.Success? && requirementsReply.Success? && setupReply.Success?
    ensures osReply.Failure? ==> r.result == Failure(osReply.error)
    ensures osReply.Success? && requirementsReply.Failure? ==> r.result == Failure(requirementsReply.error)
    ensures osReply.Success? && requirementsReply.Success? && setupReply.Failure?
            ==> r.result == Failure(setupReply.error)
  {
    match osReply
    case Failure(e) => RefreshRun(s, Steps[..1], Failure(e))
    case Success(os) =>
      var afterOs := s.(osType := Known(os.os));
      match requirementsReply
      case Failure(e) => RefreshRun(afterOs, Steps[..2], Failure(e))
      case Success(req) =>
        var afterRequirements := afterOs.(requirements := Some(req.requirements));
        match setupReply
        case Failure(e) => RefreshRun(afterRequirements, Steps, Failure(e))
        case Success(flag) => RefreshRun(afterRequirements.(setup := Some(flag.flag)), Steps, Success(()))
  }

  /** Repeating a refresh that meets the same replies changes nothing further:
      every field is either overwritten with the same value or left alone. */
  lemma RefreshIdempotent(s: Status, osReply: Result<Value, Cause>, requirementsReply: Result<Value, Cause>,
                          setupReply: Result<Value, Cause>)
    requires Answers(osReply, GetOperatingSystemType)
    requires Answers(requirementsReply, GetRequirements)
    requires Answers(setupReply, Command.IsSetup)
    ensures var once := Refreshed(s, osReply, requirementsReply, setupReply).status;
            Refreshed(once, osReply, requirementsReply, setupReply).status == once
  {
  }

  /** A refresh that completes decides every field but the gamepads, whatever
      the store held before. */
  lemma CompletedRefreshForgetsHistory(s: Status, u: Status, osReply: Result<Value, Cause>,
                                       requirementsReply: Result<Value, Cause>, setupReply: Result<Value, Cause>)
    requires Answers(osReply, GetOperatingSystemType)
    requires Answers(requirementsReply, GetRequirements)
    requires Answers(setupReply, Command.IsSetup)
    requires Refreshed(s, osReply, requirementsReply, setupReply).result.Success?
    ensures Refreshed(s, osReply, requirementsReply, setupReply).status.(gamepads := u.gamepads)
            == Refreshed(u, osReply, requirementsReply, setupReply).status
  {
  }

  class System {
    var osType: OsKind                       // `_type`
    var requirements: Option<B.Requirements>
    var gamepads: seq<Gamepad>
    var setup: Option<bool>                  // `_isSetup`

    /** The store as it is created: nothing is known yet and no gamepad is connected. */
    constructor ()
      ensures Snapshot() == Status(Unknown, None, [], None)
      ensures !Supported() && !GamepadConnected() && IsSetup() == None
    {
      osType := Unknown;
      requirements := None;
      gamepads := [];
      setup := None;
    }

    function Snapshot(): Status
      reads this
    {
      Status(osType, requirements, gamepads, setup)
    }

    /** `type`: the last reported operating system. */
    function Type(): (r: OsKind)
      reads this
      ensures r == osType
    {
      osType
    }

    /** `gamepadConnected`: some gamepad is connected. */
    function GamepadConnected(): (r: bool)
      reads this
      ensures r <==> gamepads != []
    {
      |gamepads| > 0
    }

    /** `isSetup`: the last reported setup flag. */
    function IsSetup(): (r: Option<bool>)
      reads this
      ensures r == setup
    {
      setup
    }

    /** `supported`: the last reported operating system is Linux; false while unknown. */
    function Supported(): (r: bool)
      reads this
      ensures r <==> osType == Known(B.Linux)
      ensures osType == Unknown ==> !r
    {
      Type() == Known(B.Linux)
    }

    /** `refresh`: asks for the operating system, the requirements and the setup
        flag one after the other, storing each as it arrives; the first failure
        propagates and the remaining requests are not sent. */
    method Refresh(t: Transport) returns (r: Result<(), Cause>)
      requires t.Trusted()
      modifies this, t
      ensures var n := |old(t.sent)|;
              var run := Refreshed(old(Snapshot()), t.respond(n, Steps[0]), t.respond(n + 1, Steps[1]),
                                   t.respond(n + 2, Steps[2]));
              Snapshot() == run.status && t.sent == old(t.sent) + run.issued && r == run.result
      ensures gamepads == old(gamepads)
      ensures r.Success? ==> (Supported() <==> t.respond(|old(t.sent)|, Steps[0]) == Success(OsTypeValue(B.Linux)))
    {
      ghost var sent0 := t.sent;
      var os := SafeInvoke(t, GetOperatingSystemType, None);
      if os.Failure? {
        return Failure(os.error);
      }
      osType := Known(os.value.os);
      var req := SafeInvoke(t, GetRequirements, None);
      if req.Failure? {
        assert t.sent == sent0 + Steps[..2];
        return Failure(req.error);
      }
      requirements := Some(req.value.requirements);
      var flag := SafeInvoke(t, Command.IsSetup, None);
      assert t.sent == sent0 + Steps;
      if flag.Failure? {
        return Failure(flag.error);
      }
      setup := Some(flag.value.flag);
      return Success(());
    }
  }
}
