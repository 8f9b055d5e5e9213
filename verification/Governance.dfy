/**
 * Governed entity-resolution commands: each is one transaction over the candidates, the registry of
 * source handles and the append-only history. Graph lookups are inputs; graph writes come after the
 * commit and are not part of the state.
 */
module Governance {
  import opened Options
  import Supersession

  datatype Candidate = Candidate(entityType: string, source: string, handle: string,
                                 status: string, canonical: Option<string>, reason: string)

  datatype HistoryRow = HistoryRow(candidate: string, previousStatus: Option<string>, newStatus: string,
                                   previousCanonical: Option<string>, newCanonical: Option<string>, reason: string)

  type Handle = (string, string)

  datatype Registry = Registry(candidates: map<string, Candidate>, handles: map<Handle, string>,
                               history: seq<HistoryRow>)

  // What the graph says of a node: absent, or present with its type (which may be missing).
  datatype Node = Absent | Present(nodeType: Option<string>)

  datatype Outcome = Done(previousStatus: Option<string>, previousCanonical: Option<string>)
                   | Idempotent(previousStatus: Option<string>, previousCanonical: Option<string>)
                   | CandidateNotFound | StalePreview | TargetNotFound | TypeMismatch
                   | HandleAlreadyLinked(owner: string) | AlreadyEnumerable

  datatype Change = Change(registry: Registry, outcome: Outcome)

  // Python truthiness of an optional string.
  predicate Truthy(s: Option<string>) {
    s.Some? && s.value != ""
  }

  function NodeType(entityType: string): Option<string> {
    if entityType == "ARTIST" then Some("artist")
    else if entityType == "VENUE" then Some("venue")
    else if entityType == "ORGANIZER" then Some("organizer")
    else if entityType == "EVENT_SERIES" then Some("event_series")
    else None
  }

  function HandleOf(c: Candidate): Handle {
    (c.source, c.handle)
  }

  function Owner(r: Registry, h: Handle): Option<string> {
    if h in r.handles then Some(r.handles[h]) else None
  }

  predicate Stale(c: Candidate, expected: Option<string>) {
    Truthy(expected) && c.status != expected.value
  }

  // One command's write: the candidate's new row, and the history row that logs it.
  function Moved(r: Registry, id: string, status: string, canonical: Option<string>, logged: Option<string>,
                 reason: string): Registry
    requires id in r.candidates
  {
    var c := r.candidates[id];
    r.(candidates := r.candidates[id := c.(status := status, canonical := canonical, reason := reason)],
       history := r.history + [HistoryRow(id, Some(c.status), status, c.canonical, logged, reason)])
  }

  function Registered(r: Registry, h: Handle, canonical: string): Registry {
    r.(handles := r.handles[h := canonical])
  }

  function WasAt(c: Candidate): Outcome {
    Done(Some(c.status), c.canonical)
  }

  function Accept(r: Registry, id: string, target: string, expected: Option<string>, requireExists: bool,
                  node: Node, reason: string): Change
  {
    if id !in r.candidates then Change(r, CandidateNotFound)
    else
      var c := r.candidates[id];
      var nodeType := if requireExists && node.Present? then node.nodeType else None;
      var owner := Owner(r, HandleOf(c));
      if Stale(c, expected) then Change(r, StalePreview)
      else if c.status == "RESOLVED" && c.canonical == Some(target) then
        Change(r, Idempotent(Some(c.status), c.canonical))
      else if requireExists && node.Absent? then Change(r, TargetNotFound)
      else if Truthy(nodeType) && nodeType != NodeType(c.entityType) then Change(r, TypeMismatch)
      else if Truthy(owner) && owner.value != target then Change(r, HandleAlreadyLinked(owner.value))
      else Change(Moved(Registered(r, HandleOf(c), target), id, "RESOLVED", Some(target), Some(target), reason), WasAt(c))
  }

  function Reject(r: Registry, id: string, reason: string, expected: Option<string>): Change {
    if id !in r.candidates then Change(r, CandidateNotFound)
    else
      var c := r.candidates[id];
      if Stale(c, expected) then Change(r, StalePreview)
      else Change(Moved(r, id, "REJECTED", c.canonical, None, reason), WasAt(c))
  }

  function MarkUnresolved(r: Registry, id: string, reason: string): Change {
    if id !in r.candidates then Change(r, CandidateNotFound)
    else Change(Moved(r, id, "UNRESOLVED", None, None, reason), WasAt(r.candidates[id]))
  }

  function ReverseAccept(r: Registry, id: string, restoreStatus: Option<string>, restoreCanonical: Option<string>,
                         removeHandle: bool): Change
  {
    if id !in r.candidates then Change(r, CandidateNotFound)
    else
      var c := r.candidates[id];
      var status := if Truthy(restoreStatus) then restoreStatus.value else "UNRESOLVED";
      var moved := Moved(r, id, status, restoreCanonical, restoreCanonical, "REVERSED");
      if removeHandle && !Truthy(restoreCanonical) then
        Change(moved.(handles := moved.handles - {HandleOf(c)}), WasAt(c))
      else if Truthy(restoreCanonical) then
        Change(Registered(moved, HandleOf(c), restoreCanonical.value), WasAt(c))
      else Change(moved, WasAt(c))
  }

  // An artist row of its own for a canonical id no candidate points at yet. `id` is a new uuid.
  function RegisterExternal(r: Registry, id: string, canonical: string): Change
    requires id !in r.candidates
  {
    if exists k :: k in r.candidates && r.candidates[k].entityType == "ARTIST" && r.candidates[k].canonical == Some(canonical)
    then Change(r, AlreadyEnumerable)
    else
      var c := Candidate("ARTIST", "external_discovery", "external:" + canonical, "RESOLVED", Some(canonical), "EXTERNAL_DISCOVERY");
      Change(r.(candidates := r.candidates[id := c],
                history := r.history + [HistoryRow(id, None, "RESOLVED", None, Some(canonical), "EXTERNAL_DISCOVERY")]),
             Done(None, None))
  }

  // ---- Runs -----------------------------------------------------------------------------------------------

  datatype Command = AcceptC(id: string, target: string, expected: Option<string>, requireExists: bool, node: Node, reason: string)
                   | RejectC(id: string, reason: string, expected: Option<string>)
                   | UnresolveC(id: string, reason: string)
                   | ReverseC(id: string, restoreStatus: Option<string>, restoreCanonical: Option<string>, removeHandle: bool)
                   | RegisterC(id: string, canonical: string)

  predicate Fresh(r: Registry, cmd: Command) {
    cmd.RegisterC? ==> cmd.id !in r.candidates
  }

  function Apply(r: Registry, cmd: Command): Change
    requires Fresh(r, cmd)
  {
    match cmd
    case AcceptC(id, target, expected, requireExists, node, reason) => Accept(r, id, target, expected, requireExists, node, reason)
    case RejectC(id, reason, expected) => Reject(r, id, reason, expected)
    case UnresolveC(id, reason) => MarkUnresolved(r, id, reason)
    case ReverseC(id, status, canonical, remove) => ReverseAccept(r, id, status, canonical, remove)
    case RegisterC(id, canonical) => RegisterExternal(r, id, canonical)
  }

  ghost predicate Runs(r: Registry, cmds: seq<Command>)
    decreases |cmds|, 0
  {
    cmds == [] || (Runs(r, cmds[..|cmds| - 1]) && Fresh(After(r, cmds[..|cmds| - 1]), cmds[|cmds| - 1]))
  }

  ghost function After(r: Registry, cmds: seq<Command>): Registry
    requires Runs(r, cmds)
    decreases |cmds|, 1
  {
    if cmds == [] then r else Apply(After(r, cmds[..|cmds| - 1]), cmds[|cmds| - 1]).registry
  }

  // ---- The history is the status ------------------------------------------------------------------------

  function StatusOf(r: Registry, id: string): Option<string> {
    if id in r.candidates then Some(r.candidates[id].status) else None
  }

  function CanonicalOf(r: Registry, id: string): Option<string> {
    if id in r.candidates then r.candidates[id].canonical else None
  }

  function Replay(rows: seq<HistoryRow>, id: string, status: Option<string>): Option<string>
    decreases |rows|
  {
    if rows == [] then status
    else if rows[|rows| - 1].candidate == id then Some(rows[|rows| - 1].newStatus)
    else Replay(rows[..|rows| - 1], id, status)
  }

  // Every row of `id` starts from the status the rows before it lead to.
  ghost predicate Linked(rows: seq<HistoryRow>, id: string, status: Option<string>) {
    forall k :: 0 <= k < |rows| && rows[k].candidate == id ==> rows[k].previousStatus == Replay(rows[..k], id, status)
  }

  // What one command adds to the history: nothing, or one row that tells the truth about the candidate.
  ghost predicate Logged(r: Registry, after: Registry, id: string) {
    if after.history == r.history then StatusOf(after, id) == StatusOf(r, id) && CanonicalOf(after, id) == CanonicalOf(r, id)
    else
      && |after.history| == |r.history| + 1 && r.history == after.history[..|r.history|]
      && var row := after.history[|r.history|];
      if row.candidate == id then
        && row.previousStatus == StatusOf(r, id) && row.previousCanonical == CanonicalOf(r, id)
        && StatusOf(after, id) == Some(row.newStatus)
        && (row.newStatus != "REJECTED" ==> CanonicalOf(after, id) == row.newCanonical)
      else StatusOf(after, id) == StatusOf(r, id) && CanonicalOf(after, id) == CanonicalOf(r, id)
  }

  /** Each command logs exactly what it did, and nothing it did not do. */
  lemma CommandsAreLogged(r: Registry, cmd: Command, id: string)
    requires Fresh(r, cmd)
    ensures Logged(r, Apply(r, cmd).registry, id)
  {
  }

  /**
   * Over every run the history only grows, replaying the new rows of a candidate from its first status
   * gives its present one, and each row starts where the row before it ended.
   */
  lemma {:induction false} HistoryReplays(r: Registry, cmds: seq<Command>, id: string)
    requires Runs(r, cmds)
    ensures r.history <= After(r, cmds).history
    ensures var rows := After(r, cmds).history[|r.history|..];
            && Replay(rows, id, StatusOf(r, id)) == StatusOf(After(r, cmds), id)
            && Linked(rows, id, StatusOf(r, id))
    decreases |cmds|
  {
    var start := StatusOf(r, id);
    if cmds != [] {
      var before := After(r, cmds[..|cmds| - 1]);
      var after := After(r, cmds);
      HistoryReplays(r, cmds[..|cmds| - 1], id);
      CommandsAreLogged(before, cmds[|cmds| - 1], id);
      var old_ := before.history[|r.history|..];
      var rows := after.history[|r.history|..];
      if after.history != before.history {
        assert rows == old_ + [after.history[|before.history|]];
        AppendReplays(old_, after.history[|before.history|], id, start);
      }
    }
  }

  lemma AppendReplays(rows: seq<HistoryRow>, row: HistoryRow, id: string, status: Option<string>)
    requires Linked(rows, id, status)
    requires row.candidate == id ==> row.previousStatus == Replay(rows, id, status)
    ensures Replay(rows + [row], id, status) == if row.candidate == id then Some(row.newStatus) else Replay(rows, id, status)
    ensures Linked(rows + [row], id, status)
  {
    var all := rows + [row];
    assert all[..|all| - 1] == rows;
    forall k | 0 <= k < |all| && all[k].candidate == id ensures all[k].previousStatus == Replay(all[..k], id, status) {
      if k < |rows| {
        assert all[..k] == rows[..k];
      } else {
        assert all[..k] == rows;
      }
    }
  }

  // ---- Owned handles --------------------------------------------------------------------------------------

  /** Accepting never re-points an owned handle; only a reversal can. */
  lemma {:induction false} OwnersStay(r: Registry, cmds: seq<Command>, h: Handle)
    requires Runs(r, cmds) && Truthy(Owner(r, h))
    requires forall k :: 0 <= k < |cmds| ==> !cmds[k].ReverseC?
    ensures Owner(After(r, cmds), h) == Owner(r, h)
    decreases |cmds|
  {
    if cmds != [] {
      OwnersStay(r, cmds[..|cmds| - 1], h);
      assert !cmds[|cmds| - 1].ReverseC?;
    }
  }

  /** An accept goes through exactly when nothing it checks is against it, and then the handle is the target's. */
  lemma AcceptedExactlyWhen(r: Registry, id: string, target: string, expected: Option<string>, node: Node, reason: string)
    ensures var change := Accept(r, id, target, expected, true, node, reason);
            && (change.outcome.Done? <==>
                  && id in r.candidates && !Stale(r.candidates[id], expected)
                  && !(r.candidates[id].status == "RESOLVED" && r.candidates[id].canonical == Some(target))
                  && node.Present? && (Truthy(node.nodeType) ==> node.nodeType == NodeType(r.candidates[id].entityType))
                  && (Truthy(Owner(r, HandleOf(r.candidates[id]))) ==> Owner(r, HandleOf(r.candidates[id])) == Some(target)))
            && (change.outcome.Done? ==>
                  Owner(change.registry, HandleOf(r.candidates[id])) == Some(target) == CanonicalOf(change.registry, id))
            && (!change.outcome.Done? ==> change.registry == r)
  {
  }

  // ---- Reversal ---------------------------------------------------------------------------------------------

  /**
   * Reversing an accept with the values it returned restores the candidate's status and canonical id.
   * It restores the handle registry exactly when the handle was unowned and there was no previous id
   * (with `remove_handle`), or the previous id already owned it, or (keeping the handle) the target did.
   */
  lemma ReversalRestores(r: Registry, id: string, target: string, expected: Option<string>, requireExists: bool,
                         node: Node, reason: string, removeHandle: bool)
    requires Accept(r, id, target, expected, requireExists, node, reason).outcome.Done?
    requires r.candidates[id].status != ""
    ensures var accepted := Accept(r, id, target, expected, requireExists, node, reason);
            var reversed := ReverseAccept(accepted.registry, id, accepted.outcome.previousStatus,
                                          accepted.outcome.previousCanonical, removeHandle);
            var owner := Owner(r, HandleOf(r.candidates[id]));
            var previous := r.candidates[id].canonical;
            && StatusOf(reversed.registry, id) == StatusOf(r, id)
            && CanonicalOf(reversed.registry, id) == CanonicalOf(r, id)
            && (forall other :: other != id ==> other in reversed.registry.candidates ==>
                                  other in r.candidates && reversed.registry.candidates[other] == r.candidates[other])
            && (reversed.registry.handles == r.handles <==>
                  || (!Truthy(previous) && removeHandle && owner.None?)
                  || (Truthy(previous) && owner == previous)
                  || (!Truthy(previous) && !removeHandle && owner == Some(target)))
  {
  }

  /** Registering an external artist leaves it enumerable, and never touches a row that was there. */
  lemma RegisteredIsEnumerable(r: Registry, id: string, canonical: string)
    requires id !in r.candidates
    ensures var after := RegisterExternal(r, id, canonical).registry;
            && (exists k :: k in after.candidates && after.candidates[k].entityType == "ARTIST"
                            && after.candidates[k].canonical == Some(canonical))
            && (forall k :: k in r.candidates ==> k in after.candidates && after.candidates[k] == r.candidates[k])
            && after.handles == r.handles
            && (forall id2 :: id2 !in after.candidates ==> RegisterExternal(after, id2, canonical).registry == after)
  {
    var change := RegisterExternal(r, id, canonical);
    if change.outcome.Done? {
      assert change.registry.candidates[id].canonical == Some(canonical);
    }
  }

  // ---- The service --------------------------------------------------------------------------------------------

  /** `GovernanceService`: the same commands, updating the rows in place. */
  class GovernanceService {
    var candidates: map<string, Candidate>
    var handles: map<Handle, string>
    var history: seq<HistoryRow>
    var links: Supersession.Links

    function State(): Registry
      reads this
    {
      Registry(candidates, handles, history)
    }

    constructor (start: map<string, Candidate>, known: map<Handle, string>)
      ensures State() == Registry(start, known, []) && links == map[]
    {
      candidates, handles, history, links := start, known, [], map[];
    }

    method Log(id: string, previousStatus: Option<string>, newStatus: string,
               previousCanonical: Option<string>, newCanonical: Option<string>, reason: string)
      modifies this`history
      ensures history == old(history) + [HistoryRow(id, previousStatus, newStatus, previousCanonical, newCanonical, reason)]
    {
      history := history + [HistoryRow(id, previousStatus, newStatus, previousCanonical, newCanonical, reason)];
    }

    method RegisterHandle(c: Candidate, canonical: string)
      modifies this`handles
      ensures handles == old(handles)[HandleOf(c) := canonical]
    {
      handles := handles[HandleOf(c) := canonical];
    }

    method AcceptCandidate(id: string, target: string, expected: Option<string>, requireExists: bool,
                           node: Node, reason: string) returns (outcome: Outcome)
      modifies this`candidates, this`handles, this`history
      ensures Change(State(), outcome) == Accept(old(State()), id, target, expected, requireExists, node, reason)
    {
      if id !in candidates {
        return CandidateNotFound;
      }
      var c := candidates[id];
      if Truthy(expected) && c.status != expected.value {
        return StalePreview;
      }
      if c.status == "RESOLVED" && c.canonical == Some(target) {
        return Idempotent(Some(c.status), c.canonical);
      }
      if requireExists {
        if node.Absent? {
          return TargetNotFound;
        }
        if Truthy(node.nodeType) && node.nodeType != NodeType(c.entityType) {
          return TypeMismatch;
        }
      }
      if HandleOf(c) in handles && handles[HandleOf(c)] != "" && handles[HandleOf(c)] != target {
        return HandleAlreadyLinked(handles[HandleOf(c)]);
      }
      RegisterHandle(c, target);
      candidates := candidates[id := c.(status := "RESOLVED", canonical := Some(target), reason := reason)];
      Log(id, Some(c.status), "RESOLVED", c.canonical, Some(target), reason);
      outcome := Done(Some(c.status), c.canonical);
    }

    method RejectCandidate(id: string, reason: string, expected: Option<string>) returns (outcome: Outcome)
      modifies this`candidates, this`history
      ensures Change(State(), outcome) == Reject(old(State()), id, reason, expected)
    {
      if id !in candidates {
        return CandidateNotFound;
      }
      var c := candidates[id];
      if Truthy(expected) && c.status != expected.value {
        return StalePreview;
      }
      candidates := candidates[id := c.(status := "REJECTED", reason := reason)];
      Log(id, Some(c.status), "REJECTED", c.canonical, None, reason);
      outcome := Done(Some(c.status), c.canonical);
    }

    method UnresolveCandidate(id: string, reason: string) returns (outcome: Outcome)
      modifies this`candidates, this`history
      ensures Change(State(), outcome) == MarkUnresolved(old(State()), id, reason)
    {
      if id !in candidates {
        return CandidateNotFound;
      }
      var c := candidates[id];
      candidates := candidates[id := c.(status := "UNRESOLVED", canonical := None, reason := reason)];
      Log(id, Some(c.status), "UNRESOLVED", c.canonical, None, reason);
      outcome := Done(Some(c.status), c.canonical);
    }

    method ReverseCandidate(id: string, restoreStatus: Option<string>, restoreCanonical: Option<string>,
                            removeHandle: bool) returns (outcome: Outcome)
      modifies this`candidates, this`handles, this`history
      ensures Change(State(), outcome) == ReverseAccept(old(State()), id, restoreStatus, restoreCanonical, removeHandle)
    {
      if id !in candidates {
        return CandidateNotFound;
      }
      var c := candidates[id];
      var status := if Truthy(restoreStatus) then restoreStatus.value else "UNRESOLVED";
      candidates := candidates[id := c.(status := status, canonical := restoreCanonical, reason := "REVERSED")];
      Log(id, Some(c.status), status, c.canonical, restoreCanonical, "REVERSED");
      if removeHandle && !Truthy(restoreCanonical) {
        handles := handles - {HandleOf(c)};
      } else if Truthy(restoreCanonical) {
        RegisterHandle(c, restoreCanonical.value);
      }
      outcome := Done(Some(c.status), c.canonical);
    }

    method SupersedeLegacy(legacy: string, canonical: string, targetExists: bool) returns (outcome: Supersession.Outcome)
      modifies this`links
      ensures Supersession.Change(links, outcome) == Supersession.Supersede(old(links), legacy, canonical, targetExists)
    {
      if legacy == canonical {
        return Supersession.SameNode;
      }
      if !targetExists {
        return Supersession.TargetNotFound;
      }
      if legacy in links && links[legacy].active && links[legacy].canonical != canonical {
        return Supersession.AlreadySuperseded(links[legacy].canonical);
      }
      links := links[legacy := Supersession.Link(canonical, true)];
      outcome := Supersession.Superseded;
    }

    method UnsupersedeLegacy(legacy: string) returns (outcome: Supersession.Outcome)
      modifies this`links
      ensures Supersession.Change(links, outcome) == Supersession.Unsupersede(old(links), legacy)
    {
      if legacy !in links || !links[legacy].active {
        return Supersession.AlreadyInactive;
      }
      links := links[legacy := links[legacy].(active := false)];
      outcome := Supersession.Unsuperseded;
    }
  }
}
