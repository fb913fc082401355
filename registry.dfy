/** The operations of the wallboard service on its roster: change a status,
    log in (an upsert), log out, and the read-only count, list and
    dashboard. Each changing operation is first given as a transition
    function on the sequence of records, with its properties proved as
    lemmas; the class `AgentRegistry` then holds the shared roster and
    its methods update it in place, proved equal to those functions. */
module Registry {
  import opened Agents
  import opened Stats

  datatype Error = NotFound | InvalidStatus

  datatype Result<T> = Ok(value: T) | Err(error: Error)

  /** The reply of a successful status change. */
  datatype StatusChange = StatusChange(oldStatus: string, newStatus: string)

  /** What an operation replies, and the roster it leaves behind. */
  datatype Step<T> = Step(reply: T, agents: seq<Agent>)

  /** Changing a status: the code is looked up first, then the new status is
      checked; only the found record's status is overwritten. */
  function ApplySetStatus(s: seq<Agent>, code: string, newStatus: string): (r: Step<Result<StatusChange>>)
    ensures FindIndex(s, code).None? ==> r == Step(Err(NotFound), s)
    ensures FindIndex(s, code).Some? && !IsValidStatus(newStatus) ==> r == Step(Err(InvalidStatus), s)
    ensures r.reply.Ok? <==> FindIndex(s, code).Some? && IsValidStatus(newStatus)
    ensures r.reply.Ok? ==>
      var i := FindIndex(s, code).value;
      && r.reply.value == StatusChange(s[i].status, newStatus)
      && |r.agents| == |s|
      && r.agents[i].status == newStatus
      && r.agents[i].code == s[i].code && r.agents[i].name == s[i].name
      && r.agents[i].loginTime == s[i].loginTime
      && forall j :: 0 <= j < |s| && j != i ==> r.agents[j] == s[j]
  {
    match FindIndex(s, code)
    case None => Step(Err(NotFound), s)
    case Some(i) =>
      if !IsValidStatus(newStatus) then Step(Err(InvalidStatus), s)
      else Step(Ok(StatusChange(s[i].status, newStatus)), s[i := s[i].(status := newStatus)])
  }

  /** Logging in never fails: an unknown code gets a new record at the end,
      a known one is set back to Available with a fresh login time. The
      reply is the record as stored afterwards. */
  function ApplyLogin(s: seq<Agent>, code: string, name: string, now: Time): (r: Step<Agent>)
    ensures r.reply.code == code && r.reply.status == Available && r.reply.loginTime == Some(now)
    ensures FindIndex(s, code).None? ==> r.agents == s + [r.reply] && r.reply.name == name
    ensures FindIndex(s, code).Some? ==>
      var i := FindIndex(s, code).value;
      && |r.agents| == |s|
      && r.agents[i] == r.reply
      && r.reply.name == s[i].name
      && forall j :: 0 <= j < |s| && j != i ==> r.agents[j] == s[j]
  {
    match FindIndex(s, code)
    case None =>
      var a := Agent(code, name, Available, Some(now));
      Step(a, s + [a])
    case Some(i) =>
      var a := s[i].(status := Available, loginTime := Some(now));
      Step(a, s[i := a])
  }

  /** Logging out an unknown code fails; otherwise the record goes Offline
      and loses its login time. */
  function ApplyLogout(s: seq<Agent>, code: string): (r: Step<Result<Agent>>)
    ensures FindIndex(s, code).None? <==> r.reply == Err(NotFound)
    ensures FindIndex(s, code).None? ==> r.agents == s
    ensures FindIndex(s, code).Some? ==>
      var i := FindIndex(s, code).value;
      && r.reply.Ok?
      && r.reply.value.code == code && r.reply.value.name == s[i].name
      && r.reply.value.status == Offline && r.reply.value.loginTime == None
      && |r.agents| == |s|
      && r.agents[i] == r.reply.value
      && forall j :: 0 <= j < |s| && j != i ==> r.agents[j] == s[j]
  {
    match FindIndex(s, code)
    case None => Step(Err(NotFound), s)
    case Some(i) =>
      var a := s[i].(status := Offline, loginTime := None);
      Step(Ok(a), s[i := a])
  }

  // ---------------------------------------------------------------------
  // Invariants kept by every operation

  lemma SetStatusPreservesValid(s: seq<Agent>, code: string, newStatus: string)
    requires Valid(s)
    ensures Valid(ApplySetStatus(s, code, newStatus).agents)
  {
  }

  lemma LoginPreservesValid(s: seq<Agent>, code: string, name: string, now: Time)
    requires Valid(s)
    ensures Valid(ApplyLogin(s, code, name, now).agents)
  {
  }

  lemma LogoutPreservesValid(s: seq<Agent>, code: string)
    requires Valid(s)
    ensures Valid(ApplyLogout(s, code).agents)
  {
  }

  // ---------------------------------------------------------------------
  // What a later lookup sees

  /** After a successful status change, looking the code up again finds the
      same record, now with the new status. */
  lemma SetStatusThenLookup(s: seq<Agent>, code: string, newStatus: string)
    requires ApplySetStatus(s, code, newStatus).reply.Ok?
    ensures var t := ApplySetStatus(s, code, newStatus).agents;
      FindIndex(t, code) == FindIndex(s, code) && t[FindIndex(t, code).value].status == newStatus
  {
    FindIndexSameCodes(s, ApplySetStatus(s, code, newStatus).agents, code);
  }

  /** After login the code is registered exactly once, and looking it up
      finds the record that was replied; the roster grew by one exactly
      when the code was new. */
  lemma LoginThenLookup(s: seq<Agent>, code: string, name: string, now: Time)
    ensures var r := ApplyLogin(s, code, name, now);
      && FindIndex(r.agents, code).Some?
      && r.agents[FindIndex(r.agents, code).value] == r.reply
      && |r.agents| == |s| + (if FindIndex(s, code).None? then 1 else 0)
  {
    var r := ApplyLogin(s, code, name, now);
    if FindIndex(s, code).None? {
      FindIndexAppend(s, r.reply);
    } else {
      FindIndexSameCodes(s, r.agents, code);
    }
  }

  /** After a successful logout, looking the code up finds it Offline and
      without a login time. */
  lemma LogoutThenLookup(s: seq<Agent>, code: string)
    requires ApplyLogout(s, code).reply.Ok?
    ensures var t := ApplyLogout(s, code).agents;
      && FindIndex(t, code) == FindIndex(s, code)
      && t[FindIndex(t, code).value].status == Offline
      && t[FindIndex(t, code).value].loginTime == None
  {
    FindIndexSameCodes(s, ApplyLogout(s, code).agents, code);
  }

  /** A status change to Offline is not a logout: the login time stays. */
  lemma SetOfflineKeepsLoginTime(s: seq<Agent>, code: string)
    requires FindIndex(s, code).Some?
    ensures var r := ApplySetStatus(s, code, Offline);
      r.agents[FindIndex(s, code).value].loginTime == s[FindIndex(s, code).value].loginTime
  {
  }

  /** Logins, logouts and status changes keep the dashboard's buckets adding
      up to the roster size. */
  lemma DashboardAfterOperations(s: seq<Agent>, code: string, name: string, status: string, now: Time)
    requires Valid(s)
    ensures CountSum(DashboardOf(ApplySetStatus(s, code, status).agents)) == |s|
    ensures CountSum(DashboardOf(ApplyLogin(s, code, name, now).agents)) ==
            |ApplyLogin(s, code, name, now).agents|
    ensures CountSum(DashboardOf(ApplyLogout(s, code).agents)) == |s|
  {
    SetStatusPreservesValid(s, code, status);
    BucketsSumToTotal(ApplySetStatus(s, code, status).agents);
    LoginPreservesValid(s, code, name, now);
    BucketsSumToTotal(ApplyLogin(s, code, name, now).agents);
    LogoutPreservesValid(s, code);
    BucketsSumToTotal(ApplyLogout(s, code).agents);
  }

  // ---------------------------------------------------------------------
  // The shared roster

  /** The service's single in-memory roster. Route handlers look records up
      by code and overwrite them where they stand. */
  class AgentRegistry {
    var agents: seq<Agent>

    ghost predicate Valid()
      reads this
    {
      Agents.Valid(agents)
    }

    /** A fresh process starts from the three seed records. */
    constructor ()
      ensures Valid() && agents == Seed()
    {
      agents := Seed();
    }

    /** The number of registered agents. */
    method Count() returns (n: nat)
      ensures n == |agents|
    {
      n := |agents|;
    }

    /** Every record, in insertion order, with their number. */
    method List() returns (all: seq<Agent>, count: nat)
      ensures all == agents && count == |all|
    {
      all, count := agents, |agents|;
    }

    method SetStatus(code: string, newStatus: string) returns (reply: Result<StatusChange>)
      requires Valid()
      modifies this
      ensures Valid()
      ensures Step(reply, agents) == ApplySetStatus(old(agents), code, newStatus)
    {
      var found := FindIndex(agents, code);
      if found.None? {
        return Err(NotFound);
      }
      if !IsValidStatus(newStatus) {
        return Err(InvalidStatus);
      }
      var i := found.value;
      var oldStatus := agents[i].status;
      agents := agents[i := agents[i].(status := newStatus)];
      SetStatusPreservesValid(old(agents), code, newStatus);
      reply := Ok(StatusChange(oldStatus, newStatus));
    }

    method ComputeDashboardStats() returns (d: Dashboard)
      requires Valid()
      ensures d == DashboardOf(agents)
      ensures d.total == |agents| && CountSum(d) == d.total
    {
      d := DashboardOf(agents);
      BucketsSumToTotal(agents);
    }

    method Login(code: string, name: string, now: Time) returns (agent: Agent)
      requires Valid()
      modifies this
      ensures Valid()
      ensures Step(agent, agents) == ApplyLogin(old(agents), code, name, now)
    {
      var found := FindIndex(agents, code);
      if found.None? {
        agent := Agent(code, name, Available, Some(now));
        agents := agents + [agent];
      } else {
        var i := found.value;
        agent := agents[i].(status := Available, loginTime := Some(now));
        agents := agents[i := agent];
      }
      LoginPreservesValid(old(agents), code, name, now);
    }

    method Logout(code: string) returns (reply: Result<Agent>)
      requires Valid()
      modifies this
      ensures Valid()
      ensures Step(reply, agents) == ApplyLogout(old(agents), code)
    {
      var found := FindIndex(agents, code);
      if found.None? {
        return Err(NotFound);
      }
      var i := found.value;
      var agent := agents[i].(status := Offline, loginTime := None);
      agents := agents[i := agent];
      LogoutPreservesValid(old(agents), code);
      reply := Ok(agent);
    }
  }

  // ---------------------------------------------------------------------
  // Scenarios on the seed roster

  lemma SeedScenarios()
    ensures ApplySetStatus(Seed(), "A099", "Active").reply == Err(NotFound)
    ensures ApplySetStatus(Seed(), "A099", "Bananas").reply == Err(NotFound)
    ensures ApplySetStatus(Seed(), "A001", "Bananas").reply == Err(InvalidStatus)
    ensures ApplySetStatus(Seed(), "A001", "available").reply == Err(InvalidStatus)
    ensures ApplySetStatus(Seed(), "A002", "Wrap Up").reply == Ok(StatusChange("Active", "Wrap Up"))
    ensures ApplyLogin(Seed(), "A050", "New Agent", "t").agents ==
            Seed() + [Agent("A050", "New Agent", "Available", Some("t"))]
  {
    var s := Seed();
    assert FindIndex(s, "A001") == Some(0);
    assert FindIndex(s, "A002") == Some(1);
    assert FindIndex(s, "A099").None?;
    assert FindIndex(s, "A050").None?;
    assert !IsValidStatus("Bananas");
    assert !IsValidStatus("available");
  }
}
