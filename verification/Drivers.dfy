/** The builtin and slirp4netns port drivers as objects, each call on its own. */
module Drivers {
  import opened Prelude
  import opened Ports
  import opened PortManager

  datatype AddError = Invalid(e: SpecError) | UnsupportedProto | RunFailed | UnsupportedIP | BackendFailed

  /** The entries of a map, each once, in any order: what both drivers' ListPorts return. */
  method ListStatuses(ports: map<int, Status>) returns (l: seq<Status>)
    requires forall id | id in ports :: ports[id].id == id
    ensures |l| == |ports|
    ensures forall st :: st in l <==> st.id in ports && ports[st.id] == st
  {
    l := [];
    var todo := ports.Keys;
    while todo != {}
      invariant todo <= ports.Keys
      invariant |l| + |todo| == |ports|
      invariant forall st :: st in l <==> st.id in ports && st.id !in todo && ports[st.id] == st
      decreases |todo|
    {
      ghost var some := AnElement(todo);
      var id :| id in todo;
      l := l + [ports[id]];
      todo := todo - {id};
    }
  }

  /** Ports named by their IDs, no two with the same protocol, parent IP and parent port. */
  predicate Proper(ports: map<int, Status>) {
    && (forall i | i in ports :: ports[i].id == i)
    && (forall i, j | i in ports && j in ports && i != j :: !SameParent(ports[i].spec, ports[j].spec))
  }

  /** Adding and removing as the interface says keeps them so. */
  lemma InterfaceKeeps(before: map<int, Status>, after: map<int, Status>, st: Status, id: int)
    requires Proper(before)
    requires AddsPort(before, after, st) || RemovesPort(before, after, id)
    ensures Proper(after)
  {
  }

  // ---------------------------------------------------------------- the builtin driver

  /** The fields that calls read and change. */
  datatype Tables = Tables(ports: map<int, Status>, stoppers: map<int, Rid>, nextID: int)

  const EMPTY := Tables(map[], map[], 1)

  /** A call that changes them: one that adds `spec`, served by a routine, or one that removes an entry. */
  datatype Change = Add(spec: Spec, rid: Rid) | Remove(id: int)

  /** When the call succeeds if no other runs at the same time. */
  predicate Succeeds(validIP: string -> bool, t: Tables, c: Change) {
    match c
    case Add(spec, _) => WellFormed(spec, validIP) && !Conflicts(spec, t.ports) && (IsTCP(spec) || IsUDP(spec))
    case Remove(id) => id in t.stoppers
  }

  /** What it then leaves. */
  function Changed(t: Tables, c: Change): Tables {
    match c
    case Add(spec, rid) => Tables(t.ports[t.nextID := Status(t.nextID, spec)], t.stoppers[t.nextID := rid], t.nextID + 1)
    case Remove(id) => Tables(t.ports - {id}, t.stoppers - {id}, t.nextID)
  }

  /** pkg/port/builtin/parent: the driver's fields, and its calls when no other call runs in between. */
  class Builtin {
    var ports: map<int, Status>
    var stoppers: map<int, Rid>
    var nextID: int

    predicate Valid()
      reads this
    {
      && ports.Keys == stoppers.Keys
      && Proper(ports)
      && forall id | id in ports :: id < nextID
    }

    function Contents(): Tables
      reads this
    {
      Tables(ports, stoppers, nextID)
    }

    constructor ()
      ensures Valid() && Contents() == EMPTY
    {
      ports := map[];
      stoppers := map[];
      nextID := 1;
    }

    /** `run` is the routine tcp.Run or udp.Run started, or none if it failed. */
    method AddPort(spec: Spec, validIP: string -> bool, run: Option<Rid>) returns (r: Result<Status, AddError>)
      requires Valid()
      modifies this
      ensures Valid()
      ensures r.Ok? <==> run.Some? && Succeeds(validIP, old(Contents()), Add(spec, run.value))
      ensures r.Ok? ==>
                && r.value == Status(old(nextID), spec) && AddsPort(old(ports), ports, r.value)
                && Contents() == Changed(old(Contents()), Add(spec, run.value))
      ensures r.Err? ==> Contents() == old(Contents())
      ensures r == Err(UnsupportedProto) <==>
                WellFormed(spec, validIP) && !Conflicts(spec, old(ports)) && spec.proto in {"sctp", "sctp4", "sctp6"}
      ensures r == Err(RunFailed) <==>
                WellFormed(spec, validIP) && !Conflicts(spec, old(ports)) && (IsTCP(spec) || IsUDP(spec)) && run == None
    {
      var err := ValidatePortSpec(spec, ports, validIP);
      if err.Some? {
        return Err(Invalid(err.value));
      }
      if !IsTCP(spec) && !IsUDP(spec) {
        return Err(UnsupportedProto);
      }
      if run == None {
        return Err(RunFailed);
      }
      var id := nextID;
      var st := Status(id, spec);
      ports := ports[id := st];
      stoppers := stoppers[id := run.value];
      nextID := nextID + 1;
      InterfaceKeeps(old(ports), ports, st, id);
      return Ok(st);
    }

    method ListPorts() returns (l: seq<Status>)
      requires Valid()
      ensures |l| == |ports|
      ensures forall st :: st in l <==> st.id in ports && ports[st.id] == st
    {
      l := ListStatuses(ports);
    }

    /** `stop` is what the entry's stop function returns; the entry goes whatever that is. */
    method RemovePort(id: int, stop: RemoveResult) returns (r: Option<RemoveResult>)
      requires Valid()
      modifies this
      ensures Valid()
      ensures r.Some? <==> id in old(stoppers)
      ensures r.Some? ==> r.value == stop && RemovesPort(old(ports), ports, id)
      ensures Contents() == if r.Some? then Changed(old(Contents()), Remove(id)) else old(Contents())
    {
      if id !in stoppers {
        return None;
      }
      stoppers := stoppers - {id};
      ports := ports - {id};
      return Some(stop);
    }
  }

  // ---------------------------------------------------------------- the slirp4netns driver

  /** The add_hostfwd request. */
  datatype Forward = Forward(proto: string, hostAddr: string, hostPort: int, guestAddr: string, guestPort: int)

  /** What the backend answers: the call failed, it reported an error or no usable ID, or an ID. */
  datatype Answer = CallFailed | ErrorReply | Id(id: int) | Done

  function TrimSuffix(s: string, c: char): string {
    if s != "" && s[|s| - 1] == c then s[..|s| - 1] else s
  }

  predicate HasSuffix(s: string, c: char) {
    s != "" && s[|s| - 1] == c
  }

  /** pkg/port/slirp4netns: `to4` gives the text form of an address as IPv4, if it is one. */
  class Slirp4netns {
    var childIP: string
    var ports: map<int, Status>

    predicate Valid()
      reads this
    {
      Proper(ports)
    }

    constructor (childIP: string)
      ensures Valid() && ports == map[] && this.childIP == childIP
    {
      this.childIP := childIP;
      ports := map[];
    }

    /** The whole call holds `mu`; `answer` is the backend's answer to the request. */
    method AddPort(spec: Spec, validIP: string -> bool, to4: string -> Option<string>, answer: Answer)
      returns (r: Result<Status, AddError>, request: Option<Forward>)
      requires Valid()
      modifies this`ports
      ensures Valid()
      ensures request.Some? <==>
                && WellFormed(spec, validIP) && !Conflicts(spec, old(ports))
                && spec.proto !in {"tcp6", "udp6", "sctp6"}
                && (spec.childIP == "" || to4(spec.childIP).Some?)
      ensures request.Some? ==>
                && request.value.hostAddr == spec.parentIP && request.value.hostPort == spec.parentPort
                && request.value.guestAddr == (if spec.childIP == "" then childIP else to4(spec.childIP).value)
                && request.value.guestPort == spec.childPort
                && request.value.proto == (if spec.proto in {"tcp", "tcp4"} then "tcp"
                                           else if spec.proto in {"udp", "udp4"} then "udp" else "sctp")
      ensures r.Ok? <==> request.Some? && answer.Id?
      ensures r.Err? ==> ports == old(ports)
      ensures r == Err(UnsupportedProto) <==>
                WellFormed(spec, validIP) && !Conflicts(spec, old(ports)) && spec.proto in {"tcp6", "udp6", "sctp6"}
      ensures r == Err(BackendFailed) <==> request.Some? && !answer.Id?
      ensures r.Ok? ==> r.value == Status(answer.id, spec) && ports == old(ports)[answer.id := r.value]
      ensures r.Ok? ==> (AddsPort(old(ports), ports, r.value) <==> answer.id !in old(ports))
    {
      request := None;
      var err := ValidatePortSpec(spec, ports, validIP);
      if err.Some? {
        return Err(Invalid(err.value)), None;
      }
      if HasSuffix(spec.proto, '6') {
        return Err(UnsupportedProto), None;
      }
      var proto := TrimSuffix(spec.proto, '4');
      var ip := spec.childIP;
      if ip == "" {
        ip := childIP;
      } else {
        var p := to4(ip);
        if p == None {
          return Err(UnsupportedIP), None;
        }
        ip := p.value;
      }
      request := Some(Forward(proto, spec.parentIP, spec.parentPort, ip, spec.childPort));
      if !answer.Id? {
        return Err(BackendFailed), request;
      }
      var st := Status(answer.id, spec);
      ports := ports[answer.id := st];
      return Ok(st), request;
    }

    method ListPorts() returns (l: seq<Status>)
      requires Valid()
      ensures |l| == |ports|
      ensures forall st :: st in l <==> st.id in ports && ports[st.id] == st
    {
      l := ListStatuses(ports);
    }

    /** The entry goes only if the backend removed the forward. */
    method RemovePort(id: int, answer: Answer) returns (ok: bool)
      requires Valid()
      modifies this`ports
      ensures Valid()
      ensures ok <==> !answer.CallFailed? && !answer.ErrorReply?
      ensures ok ==> RemovesPort(old(ports), ports, id)
      ensures !ok ==> ports == old(ports)
    {
      if answer.CallFailed? || answer.ErrorReply? {
        return false;
      }
      ports := ports - {id};
      return true;
    }
  }
}
