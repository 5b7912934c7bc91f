/** Port specs and their validation against the ports already registered. */
module Ports {
  import opened Prelude

  datatype Spec = Spec(proto: string, parentIP: string, parentPort: int, childIP: string, childPort: int)

  datatype Status = Status(id: int, spec: Spec)

  datatype SpecError =
    | UnknownProto
    | InvalidParentIP
    | InvalidChildIP
    | InvalidParentPort
    | InvalidChildPort
    | Conflict(id: int)

  predicate KnownProto(proto: string) {
    || proto == "tcp" || proto == "tcp4" || proto == "tcp6"
    || proto == "udp" || proto == "udp4" || proto == "udp6"
    || proto == "sctp" || proto == "sctp4" || proto == "sctp6"
  }

  /** They are three families, each for both IP versions or for one. */
  lemma KnownProtoIs(proto: string)
    ensures KnownProto(proto) <==>
              exists family, version | family in {"tcp", "udp", "sctp"} && version in {"", "4", "6"} :: proto == family + version
  {
    assert "tcp" + "" == "tcp" && "tcp" + "4" == "tcp4" && "tcp" + "6" == "tcp6";
    assert "udp" + "" == "udp" && "udp" + "4" == "udp4" && "udp" + "6" == "udp6";
    assert "sctp" + "" == "sctp" && "sctp" + "4" == "sctp4" && "sctp" + "6" == "sctp6";
  }

  /** What ValidatePortSpec compares: the same protocol, parent IP text and parent port. */
  predicate SameParent(a: Spec, b: Spec) {
    a.proto == b.proto && a.parentIP == b.parentIP && a.parentPort == b.parentPort
  }

  /** The checks of ValidatePortSpec that do not look at other ports. `validIP` is net.ParseIP succeeding. */
  predicate WellFormed(spec: Spec, validIP: string -> bool) {
    && KnownProto(spec.proto)
    && ValidAddress(spec.parentIP, validIP)
    && ValidAddress(spec.childIP, validIP)
    && ValidPort(spec.parentPort)
    && ValidPort(spec.childPort)
  }

  predicate ValidAddress(ip: string, validIP: string -> bool) {
    ip == "" || validIP(ip)
  }

  predicate ValidPort(p: int) {
    0 < p <= 65535
  }

  predicate Conflicts(spec: Spec, ports: map<int, Status>) {
    exists id | id in ports :: SameParent(ports[id].spec, spec)
  }

  /** The loop of ValidatePortSpec; a map range visits the entries in any order. */
  method FindConflict(spec: Spec, existing: map<int, Status>) returns (conflict: Option<int>)
    ensures conflict == None <==> !Conflicts(spec, existing)
    ensures conflict.Some? ==> conflict.value in existing && SameParent(existing[conflict.value].spec, spec)
  {
    var todo := existing.Keys;
    while todo != {}
      invariant todo <= existing.Keys
      invariant forall id | id in existing && id !in todo :: !SameParent(existing[id].spec, spec)
      decreases |todo|
    {
      ghost var some := AnElement(todo);
      var id :| id in todo;
      if SameParent(existing[id].spec, spec) {
        return Some(id);
      }
      todo := todo - {id};
    }
    return None;
  }

  method ValidatePortSpec(spec: Spec, existing: map<int, Status>, validIP: string -> bool) returns (err: Option<SpecError>)
    ensures err == None <==> WellFormed(spec, validIP) && !Conflicts(spec, existing)
    // otherwise it names the first check that fails
    ensures err == Some(UnknownProto) <==> !KnownProto(spec.proto)
    ensures err == Some(InvalidParentIP) ==> !ValidAddress(spec.parentIP, validIP)
    ensures err == Some(InvalidChildIP) ==> ValidAddress(spec.parentIP, validIP) && !ValidAddress(spec.childIP, validIP)
    ensures err == Some(InvalidParentPort) ==>
              ValidAddress(spec.parentIP, validIP) && ValidAddress(spec.childIP, validIP) && !ValidPort(spec.parentPort)
    ensures err == Some(InvalidChildPort) ==>
              && ValidAddress(spec.parentIP, validIP) && ValidAddress(spec.childIP, validIP)
              && ValidPort(spec.parentPort) && !ValidPort(spec.childPort)
    ensures err.Some? && err.value.Conflict? ==>
              && WellFormed(spec, validIP)
              && err.value.id in existing
              && SameParent(existing[err.value.id].spec, spec)
  {
    if !KnownProto(spec.proto) {
      return Some(UnknownProto);
    }
    if spec.parentIP != "" && !validIP(spec.parentIP) {
      return Some(InvalidParentIP);
    }
    if spec.childIP != "" && !validIP(spec.childIP) {
      return Some(InvalidChildIP);
    }
    if spec.parentPort <= 0 || spec.parentPort > 65535 {
      return Some(InvalidParentPort);
    }
    if spec.childPort <= 0 || spec.childPort > 65535 {
      return Some(InvalidChildPort);
    }
    var conflict := FindConflict(spec, existing);
    return if conflict == None then None else Some(Conflict(conflict.value));
  }
}
