/** The agent record of the wallboard service, the five status values it
    accepts, lookup by code, and the two invariants every registry keeps:
    codes are unique and every stored status is one of the five. */
module Agents {

  datatype Option<+T> = None | Some(value: T)

  /** A login timestamp; the service uses the ISO-8601 text of the clock,
      which this model receives as a parameter. */
  type Time = string

  /** One roster entry. `status` is kept as the text the service stores, so
      that "it is one of the five values" is something to prove. An absent
      `loginTime` is `None`. */
  datatype Agent = Agent(code: string, name: string, status: string, loginTime: Option<Time>)

  const Available: string := "Available"
  const Active: string := "Active"
  const WrapUp: string := "Wrap Up"
  const NotReady: string := "Not Ready"
  const Offline: string := "Offline"

  /** The statuses a caller may set, in the order the service lists them. */
  const ValidStatuses: seq<string> := [Available, Active, WrapUp, NotReady, Offline]

  /** Exact, case-sensitive membership in the five statuses. */
  predicate IsValidStatus(s: string) {
    s in ValidStatuses
  }

  /** The first position holding `code`, scanning from the front, as the
      service's lookup does; `None` when no record has that code. */
  function FindIndex(s: seq<Agent>, code: string): (r: Option<nat>)
    ensures r.None? <==> forall j :: 0 <= j < |s| ==> s[j].code != code
    ensures r.Some? ==> r.value < |s| && s[r.value].code == code
    ensures r.Some? ==> forall j :: 0 <= j < r.value ==> s[j].code != code
  {
    if s == [] then None
    else if s[0].code == code then Some(0)
    else match FindIndex(s[1..], code)
      case None => None
      case Some(i) => Some(i + 1)
  }

  predicate UniqueCodes(s: seq<Agent>) {
    forall i, j :: 0 <= i < j < |s| ==> s[i].code != s[j].code
  }

  predicate StatusesValid(s: seq<Agent>) {
    forall i :: 0 <= i < |s| ==> IsValidStatus(s[i].status)
  }

  /** The registry invariant. */
  predicate Valid(s: seq<Agent>) {
    UniqueCodes(s) && StatusesValid(s)
  }

  /** Lookup sees only the codes, so rewriting other fields in place does
      not move any record. */
  lemma FindIndexSameCodes(s: seq<Agent>, t: seq<Agent>, code: string)
    requires |s| == |t|
    requires forall j :: 0 <= j < |s| ==> s[j].code == t[j].code
    ensures FindIndex(s, code) == FindIndex(t, code)
  {
  }

  /** Appending a record whose code is new makes it the record found for
      that code. */
  lemma FindIndexAppend(s: seq<Agent>, a: Agent)
    requires FindIndex(s, a.code).None?
    ensures FindIndex(s + [a], a.code) == Some(|s|)
  {
    var t := s + [a];
    assert t[|s|].code == a.code;
    assert forall j :: 0 <= j < |s| ==> t[j] == s[j];
  }

  /** The three records the service starts with. */
  function Seed(): (s: seq<Agent>)
    ensures |s| == 3 && Valid(s)
  {
    [ Agent("A001", "Ciel", Available, None),
      Agent("A002", "Jane Smith", Active, None),
      Agent("A003", "Mike Chan", NotReady, None) ]
  }
}
