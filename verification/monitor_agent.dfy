/** The reconciliation logic of `monitor_agent.py`: container names, the
    check frequency of a container, one `update()` pass over the local
    containers, the server's clients and the table of check timers, and
    the check result sent for a routine's report.

    The docker listing, the server's client list, this host's name and the
    configured frequency rules are parameters; a regular-expression full
    match is the abstract predicate `matches(pattern, name)`. A timer is
    represented by what it was created with; its thread is not modelled. */
module MonitorAgent {
  import opened Wrappers
  import opened Tasks
  import opened RoutineRunner
  import Execution
  import Macros

  /** A container as the docker client lists it: its `Names`. */
  datatype Container = Container(names: seq<string>)

  /** `get_container_name(container)`: the first name without its first
      character (docker lists names as `/name`); a container without any
      name raises `IndexError`. */
  function ContainerName(c: Container): (r: Option<string>)
    ensures r.Some? <==> |c.names| > 0
    ensures r.Some? && |c.names[0]| > 0 ==> r.value == c.names[0][1..]
    ensures r.Some? && |c.names[0]| == 0 ==> r.value == ""
  {
    if |c.names| == 0 then None
    else if |c.names[0]| == 0 then Some("")
    else Some(c.names[0][1..])
  }

  /** A name listed as `/name` is read back as `name`, whatever names
      follow it. */
  lemma ContainerNameStripsSlash(n: string, rest: seq<string>)
    ensures ContainerName(Container(["/" + n] + rest)) == Some(n)
  {
    assert (["/" + n] + rest)[0] == "/" + n;
    assert ("/" + n)[1..] == n;
  }

  /** `container_names`: the names of all containers, in order, or the
      `IndexError` of the first container without a name. */
  function Names(cs: seq<Container>): (r: Option<seq<string>>)
    ensures r.Some? <==> forall i :: 0 <= i < |cs| ==> |cs[i].names| > 0
    ensures r.Some? ==> |r.value| == |cs| && forall i :: 0 <= i < |cs| ==> r.value[i] == ContainerName(cs[i]).value
  {
    if |cs| == 0 then Some([])
    else match ContainerName(cs[0])
      case None => None
      case Some(n) =>
        match Names(cs[1..])
        case None => None
        case Some(rest) => Some([n] + rest)
  }

  /** One entry of the configured `frequencies`. */
  datatype FreqRule = FreqRule(pattern: string, seconds: int)

  /** `re.match('^' + pattern + '$', name)`: whether the pattern matches
      the whole name. */
  type Matcher = (string, string) -> bool

  /** `get_check_freq(name)`: the seconds of the first rule, in order,
      whose pattern matches the whole name; `None` when none does. */
  function CheckFreq(rules: seq<FreqRule>, name: string, matches: Matcher): (r: Option<int>)
    ensures r.None? <==> forall i :: 0 <= i < |rules| ==> !matches(rules[i].pattern, name)
    ensures r.Some? ==> exists i :: (0 <= i < |rules| && matches(rules[i].pattern, name)
      && r.value == rules[i].seconds && forall j :: 0 <= j < i ==> !matches(rules[j].pattern, name))
  {
    if |rules| == 0 then None
    else if matches(rules[0].pattern, name) then
      Some(rules[0].seconds)
    else
      var r := CheckFreq(rules[1..], name, matches);
      assert forall i :: 1 <= i < |rules| ==> rules[i] == rules[1..][i - 1];
      if r.Some? then
        var i :| 0 <= i < |rules[1..]| && matches(rules[1..][i].pattern, name)
          && r.value == rules[1..][i].seconds && forall j :: 0 <= j < i ==> !matches(rules[1..][j].pattern, name);
        assert forall j :: 0 <= j < i + 1 ==> !matches(rules[j].pattern, name);
        r
      else r
  }

  /** Python's truth test of a frequency: `None` and `0` are false. */
  predicate Truthy(freq: Option<int>)
  {
    freq.Some? && freq.value != 0
  }

  /** A client registered on the monitoring server. */
  datatype Client = Client(name: string, address: string)

  /** `client_names`: the names of all clients, whatever their address. */
  function ClientNames(clients: seq<Client>): (names: seq<string>)
    ensures |names| == |clients|
    ensures forall i :: 0 <= i < |clients| ==> names[i] == clients[i].name
  {
    if |clients| == 0 then [] else [clients[0].name] + ClientNames(clients[1..])
  }

  /** A check timer: the interval it fires at and the container whose
      routine it runs. */
  datatype CheckTimer = CheckTimer(interval: int, container: Container)

  // ---------------------------------------------------------------------
  // The first loop of update(): posting clients and creating timers

  /** What the first loop produces: the timer table and the names posted
      to the server, in order. */
  datatype AddResult = AddResult(timers: map<string, CheckTimer>, posted: seq<string>)

  /** The first loop from some container on: a container whose frequency
      is falsy is skipped; otherwise its name is posted when no client of
      that name exists, and a timer is created when the table has none. */
  function AddFrom(cs: seq<Container>, clientNames: seq<string>, rules: seq<FreqRule>, matches: Matcher,
                   timers: map<string, CheckTimer>): AddResult
    requires forall i :: 0 <= i < |cs| ==> |cs[i].names| > 0
  {
    if |cs| == 0 then AddResult(timers, [])
    else
      var name := ContainerName(cs[0]).value;
      var freq := CheckFreq(rules, name, matches);
      var post := if Truthy(freq) && name !in clientNames then [name] else [];
      var t1 := if Truthy(freq) && name !in timers then timers[name := CheckTimer(freq.value, cs[0])] else timers;
      var rest := AddFrom(cs[1..], clientNames, rules, matches, t1);
      AddResult(rest.timers, post + rest.posted)
  }

  /** The names the first loop posts, stated on its own: the names of the
      containers with a truthy frequency and no client of that name. */
  function ToPost(cs: seq<Container>, clientNames: seq<string>, rules: seq<FreqRule>, matches: Matcher): seq<string>
    requires forall i :: 0 <= i < |cs| ==> |cs[i].names| > 0
  {
    if |cs| == 0 then []
    else
      var name := ContainerName(cs[0]).value;
      (if Truthy(CheckFreq(rules, name, matches)) && name !in clientNames then [name] else [])
        + ToPost(cs[1..], clientNames, rules, matches)
  }

  /** A container with a falsy frequency changes nothing: no post and no
      timer. */
  lemma FalsyFrequencySkipped(c: Container, rest: seq<Container>, clientNames: seq<string>, rules: seq<FreqRule>,
                              matches: Matcher, timers: map<string, CheckTimer>)
    requires |c.names| > 0 && forall i :: 0 <= i < |rest| ==> |rest[i].names| > 0
    requires !Truthy(CheckFreq(rules, ContainerName(c).value, matches))
    ensures forall i :: 0 <= i < |[c] + rest| ==> |([c] + rest)[i].names| > 0
    ensures AddFrom([c] + rest, clientNames, rules, matches, timers) == AddFrom(rest, clientNames, rules, matches, timers)
  {
    assert forall i :: 0 <= i < |[c] + rest| ==> |([c] + rest)[i].names| > 0 by {
      forall i | 0 <= i < |[c] + rest| ensures |([c] + rest)[i].names| > 0 {
        if i > 0 { assert ([c] + rest)[i] == rest[i - 1]; }
      }
    }
    assert ([c] + rest)[1..] == rest;
    assert ([c] + rest)[0] == c;
  }

  /** The first loop posts exactly the names `ToPost` gives, in order;
      posting looks at all server clients, whatever their address. */
  lemma {:induction false} AddFromPosts(cs: seq<Container>, clientNames: seq<string>, rules: seq<FreqRule>,
                                        matches: Matcher, timers: map<string, CheckTimer>)
    requires forall i :: 0 <= i < |cs| ==> |cs[i].names| > 0
    ensures AddFrom(cs, clientNames, rules, matches, timers).posted == ToPost(cs, clientNames, rules, matches)
    ensures forall n :: n in ToPost(cs, clientNames, rules, matches) ==> n !in clientNames
    decreases |cs|
  {
    if |cs| > 0 {
      var name := ContainerName(cs[0]).value;
      var freq := CheckFreq(rules, name, matches);
      var t1 := if Truthy(freq) && name !in timers then timers[name := CheckTimer(freq.value, cs[0])] else timers;
      AddFromPosts(cs[1..], clientNames, rules, matches, t1);
    }
  }

  /** After the first loop every container with a truthy frequency has a
      timer, entries that existed are unchanged, and the only new entries
      belong to such containers. */
  lemma AddFromTimers(cs: seq<Container>, clientNames: seq<string>, rules: seq<FreqRule>,
                      matches: Matcher, timers: map<string, CheckTimer>)
    requires forall i :: 0 <= i < |cs| ==> |cs[i].names| > 0
    ensures var t := AddFrom(cs, clientNames, rules, matches, timers).timers;
      && (forall k :: k in timers ==> k in t && t[k] == timers[k])
      && (forall i :: 0 <= i < |cs| && Truthy(CheckFreq(rules, ContainerName(cs[i]).value, matches)) ==>
            ContainerName(cs[i]).value in t)
      && (forall k :: k in t && k !in timers ==> exists i :: (0 <= i < |cs| && ContainerName(cs[i]).value == k
            && Truthy(CheckFreq(rules, k, matches)) && t[k] == CheckTimer(CheckFreq(rules, k, matches).value, cs[i])))
  {
    AddFromKeepsTimers(cs, clientNames, rules, matches, timers);
    AddFromCoversTimers(cs, clientNames, rules, matches, timers);
    AddFromNewTimers(cs, clientNames, rules, matches, timers);
  }

  /** The first loop never changes a timer that exists. */
  lemma {:induction false} AddFromKeepsTimers(cs: seq<Container>, clientNames: seq<string>, rules: seq<FreqRule>,
                                              matches: Matcher, timers: map<string, CheckTimer>)
    requires forall i :: 0 <= i < |cs| ==> |cs[i].names| > 0
    ensures var t := AddFrom(cs, clientNames, rules, matches, timers).timers;
      forall k :: k in timers ==> k in t && t[k] == timers[k]
    decreases |cs|
  {
    if |cs| > 0 {
      var name := ContainerName(cs[0]).value;
      var freq := CheckFreq(rules, name, matches);
      var t1 := if Truthy(freq) && name !in timers then timers[name := CheckTimer(freq.value, cs[0])] else timers;
      AddFromKeepsTimers(cs[1..], clientNames, rules, matches, t1);
    }
  }

  /** After the first loop every container with a truthy frequency has a
      timer. */
  lemma {:induction false} AddFromCoversTimers(cs: seq<Container>, clientNames: seq<string>, rules: seq<FreqRule>,
                                               matches: Matcher, timers: map<string, CheckTimer>)
    requires forall i :: 0 <= i < |cs| ==> |cs[i].names| > 0
    ensures var t := AddFrom(cs, clientNames, rules, matches, timers).timers;
      forall i :: 0 <= i < |cs| && Truthy(CheckFreq(rules, ContainerName(cs[i]).value, matches)) ==>
        ContainerName(cs[i]).value in t
    decreases |cs|
  {
    if |cs| > 0 {
      var name := ContainerName(cs[0]).value;
      var freq := CheckFreq(rules, name, matches);
      var t1 := if Truthy(freq) && name !in timers then timers[name := CheckTimer(freq.value, cs[0])] else timers;
      AddFromKeepsTimers(cs[1..], clientNames, rules, matches, t1);
      AddFromCoversTimers(cs[1..], clientNames, rules, matches, t1);
      forall i | 1 <= i < |cs| ensures cs[i] == cs[1..][i - 1] { }
    }
  }

  /** The only timers the first loop adds belong to containers with a
      truthy frequency, each made from its container. */
  lemma {:induction false} AddFromNewTimers(cs: seq<Container>, clientNames: seq<string>, rules: seq<FreqRule>,
                                            matches: Matcher, timers: map<string, CheckTimer>)
    requires forall i :: 0 <= i < |cs| ==> |cs[i].names| > 0
    ensures var t := AddFrom(cs, clientNames, rules, matches, timers).timers;
      forall k :: k in t && k !in timers ==> exists i :: (0 <= i < |cs| && ContainerName(cs[i]).value == k
        && Truthy(CheckFreq(rules, k, matches)) && t[k] == CheckTimer(CheckFreq(rules, k, matches).value, cs[i]))
    decreases |cs|
  {
    if |cs| > 0 {
      var name := ContainerName(cs[0]).value;
      var freq := CheckFreq(rules, name, matches);
      var t1 := if Truthy(freq) && name !in timers then timers[name := CheckTimer(freq.value, cs[0])] else timers;
      AddFromKeepsTimers(cs[1..], clientNames, rules, matches, t1);
      AddFromNewTimers(cs[1..], clientNames, rules, matches, t1);
      var t := AddFrom(cs, clientNames, rules, matches, timers).timers;
      assert t == AddFrom(cs[1..], clientNames, rules, matches, t1).timers;
      forall k | k in t && k !in timers
        ensures exists i :: (0 <= i < |cs| && ContainerName(cs[i]).value == k
          && Truthy(CheckFreq(rules, k, matches)) && t[k] == CheckTimer(CheckFreq(rules, k, matches).value, cs[i]))
      {
        if k in t1 {
          assert k == name && t[k] == t1[k];
        } else {
          var i :| 0 <= i < |cs[1..]| && ContainerName(cs[1..][i]).value == k
            && Truthy(CheckFreq(rules, k, matches)) && t[k] == CheckTimer(CheckFreq(rules, k, matches).value, cs[1..][i]);
          assert cs[1..][i] == cs[i + 1];
        }
      }
    }
  }

  // ---------------------------------------------------------------------
  // The second loop of update(): deleting clients and their timers

  /** What the second loop produces: the timer table, the clients deleted
      on the server and the timers shut down, in order, and the `KeyError`
      of a timer that was not in the table, which ends the pass. */
  datatype DeleteResult = DeleteResult(
    timers: map<string, CheckTimer>,
    deleted: seq<string>,
    shutDown: seq<CheckTimer>,
    failure: Option<string>)

  /** Whether a client is this host's and its container is gone. */
  predicate Stale(c: Client, hostname: string, names: seq<string>)
  {
    c.address == hostname && c.name !in names
  }

  /** The second loop from some client on: a client of this host whose
      container is gone is deleted on the server, then its timer is popped
      from the table and shut down; popping a missing timer raises. */
  function DeleteFrom(clients: seq<Client>, hostname: string, names: seq<string>, timers: map<string, CheckTimer>): DeleteResult
  {
    if |clients| == 0 then DeleteResult(timers, [], [], None)
    else
      var c := clients[0];
      if Stale(c, hostname, names) then
        if c.name !in timers then DeleteResult(timers, [c.name], [], Some("KeyError: " + c.name))
        else
          var rest := DeleteFrom(clients[1..], hostname, names, timers - {c.name});
          DeleteResult(rest.timers, [c.name] + rest.deleted, [timers[c.name]] + rest.shutDown, rest.failure)
      else DeleteFrom(clients[1..], hostname, names, timers)
  }

  /** The names of the clients that are this host's and whose container is
      gone, in order: the clients the second loop is meant to delete. */
  function StaleNames(clients: seq<Client>, hostname: string, names: seq<string>): seq<string>
  {
    if |clients| == 0 then []
    else
      var head := if Stale(clients[0], hostname, names) then [clients[0].name] else [];
      head + StaleNames(clients[1..], hostname, names)
  }

  /** Whether a sequence holds no name twice. */
  predicate Distinct(ns: seq<string>)
  {
    forall i, j :: 0 <= i < j < |ns| ==> ns[i] != ns[j]
  }

  /** Only stale clients are deleted, and the table loses nothing but the
      timers of deleted clients: every other timer is kept unchanged. */
  lemma {:induction false} DeleteOnlyStale(clients: seq<Client>, hostname: string, names: seq<string>, timers: map<string, CheckTimer>)
    ensures var d := DeleteFrom(clients, hostname, names, timers);
      && (forall n :: n in d.deleted ==> n in StaleNames(clients, hostname, names))
      && d.timers.Keys <= timers.Keys
      && (forall k :: k in timers && k !in d.deleted ==> k in d.timers && d.timers[k] == timers[k])
      && (forall k :: k in d.timers ==> d.timers[k] == timers[k])
    decreases |clients|
  {
    if |clients| > 0 {
      var c := clients[0];
      if Stale(c, hostname, names) && c.name in timers {
        DeleteOnlyStale(clients[1..], hostname, names, timers - {c.name});
      } else {
        DeleteOnlyStale(clients[1..], hostname, names, timers);
      }
    }
  }

  /** When the stale clients are distinct and each has a timer, the second
      loop completes: it deletes exactly the stale clients, in order, shuts
      down exactly their timers, and removes them from the table. */
  lemma {:induction false} DeleteStale(clients: seq<Client>, hostname: string, names: seq<string>, timers: map<string, CheckTimer>)
    requires Distinct(StaleNames(clients, hostname, names))
    requires forall n :: n in StaleNames(clients, hostname, names) ==> n in timers
    ensures var d := DeleteFrom(clients, hostname, names, timers);
      && d.failure.None?
      && d.deleted == StaleNames(clients, hostname, names)
      && |d.shutDown| == |d.deleted|
      && (forall i :: 0 <= i < |d.deleted| ==> d.shutDown[i] == timers[d.deleted[i]])
      && (forall n :: n in d.deleted ==> n !in d.timers)
    decreases |clients|
  {
    if |clients| > 0 {
      var c := clients[0];
      var rest := StaleNames(clients[1..], hostname, names);
      if Stale(c, hostname, names) {
        assert StaleNames(clients, hostname, names) == [c.name] + rest;
        DistinctTail(c.name, rest);
        DeleteStale(clients[1..], hostname, names, timers - {c.name});
        DeleteOnlyStale(clients[1..], hostname, names, timers - {c.name});
      } else {
        assert StaleNames(clients, hostname, names) == [] + rest == rest;
        DeleteStale(clients[1..], hostname, names, timers);
      }
    }
  }

  /** The head of a sequence without repeats is not in its tail, and the
      tail has no repeats either. */
  lemma DistinctTail(x: string, rest: seq<string>)
    requires Distinct([x] + rest)
    ensures x !in rest && Distinct(rest)
  {
    forall k | 0 <= k < |rest| ensures rest[k] != x {
      assert ([x] + rest)[0] != ([x] + rest)[k + 1];
    }
    forall i, j | 0 <= i < j < |rest| ensures rest[i] != rest[j] {
      assert ([x] + rest)[i + 1] != ([x] + rest)[j + 1];
    }
  }

  /** A stale client without a timer makes the second loop raise, after
      deleting that client on the server. */
  lemma {:induction false} DeleteMissingTimerRaises(clients: seq<Client>, hostname: string, names: seq<string>, timers: map<string, CheckTimer>)
    requires exists n :: n in StaleNames(clients, hostname, names) && n !in timers
    ensures DeleteFrom(clients, hostname, names, timers).failure.Some?
    decreases |clients|
  {
    var c := clients[0];
    if Stale(c, hostname, names) {
      if c.name in timers {
        var n :| n in StaleNames(clients, hostname, names) && n !in timers;
        assert n in StaleNames(clients[1..], hostname, names);
        DeleteMissingTimerRaises(clients[1..], hostname, names, timers - {c.name});
      }
    } else {
      DeleteMissingTimerRaises(clients[1..], hostname, names, timers);
    }
  }

  // ---------------------------------------------------------------------
  // update()

  /** The effects of one `update()` pass. */
  datatype UpdateResult = UpdateResult(
    timers: map<string, CheckTimer>,
    posted: seq<string>,
    deleted: seq<string>,
    shutDown: seq<CheckTimer>,
    failure: Option<string>)

  /** One `update()` pass: the container names are read first (a container
      without a name raises before anything happens), then the first loop
      and the second loop run on the table the first left. */
  function UpdateOf(containers: seq<Container>, clients: seq<Client>, hostname: string, rules: seq<FreqRule>,
                    matches: Matcher, timers: map<string, CheckTimer>): UpdateResult
  {
    match Names(containers)
    case None => UpdateResult(timers, [], [], [], Some("IndexError: list index out of range"))
    case Some(names) =>
      var a := AddFrom(containers, ClientNames(clients), rules, matches, timers);
      var d := DeleteFrom(clients, hostname, names, a.timers);
      UpdateResult(d.timers, a.posted, d.deleted, d.shutDown, d.failure)
  }

  /** A client of this host whose container is listed is never deleted,
      nor is any client of another host, and neither loses its timer. */
  lemma UpdateKeepsLiveClients(containers: seq<Container>, clients: seq<Client>, hostname: string, rules: seq<FreqRule>,
                               matches: Matcher, timers: map<string, CheckTimer>, c: Client)
    requires Names(containers).Some?
    requires c in clients && !Stale(c, hostname, Names(containers).value)
    requires c.name in timers
    requires forall d :: d in clients && d.name == c.name ==> !Stale(d, hostname, Names(containers).value)
    ensures var u := UpdateOf(containers, clients, hostname, rules, matches, timers);
      c.name !in u.deleted && c.name in u.timers && u.timers[c.name] == timers[c.name]
  {
    var names := Names(containers).value;
    var a := AddFrom(containers, ClientNames(clients), rules, matches, timers);
    AddFromTimers(containers, ClientNames(clients), rules, matches, timers);
    DeleteOnlyStale(clients, hostname, names, a.timers);
    StaleNamesMembers(clients, hostname, names);
  }

  /** A name is stale exactly when some client of that name is. */
  lemma {:induction false} StaleNamesMembers(clients: seq<Client>, hostname: string, names: seq<string>)
    ensures forall n :: n in StaleNames(clients, hostname, names) <==>
      exists d :: d in clients && d.name == n && Stale(d, hostname, names)
    decreases |clients|
  {
    if |clients| > 0 {
      StaleNamesMembers(clients[1..], hostname, names);
      assert forall d :: d in clients[1..] ==> d in clients;
      assert forall d :: d in clients ==> d == clients[0] || d in clients[1..];
    }
  }

  /** The table of check timers kept by the agent. */
  class Agent {
    var timers: map<string, CheckTimer>

    constructor ()
      ensures timers == map[]
    {
      timers := map[];
    }

    /** `create_check_timer(container, freq)`: a timer for the container,
        stored under its name (replacing any earlier one). */
    method CreateCheckTimer(c: Container, freq: int) returns (r: Result<(), string>)
      modifies this
      ensures r.Ok? <==> |c.names| > 0
      ensures r.Ok? ==> timers == old(timers)[ContainerName(c).value := CheckTimer(freq, c)]
      ensures r.Err? ==> timers == old(timers)
    {
      var name := ContainerName(c);
      if name.None? {
        return Err("IndexError: list index out of range");
      }
      timers := timers[name.value := CheckTimer(freq, c)];
      r := Ok(());
    }

    /** `update()`: returns the names posted, the clients deleted, the
        timers shut down and the exception that ended the pass, if any. */
    method Update(containers: seq<Container>, clients: seq<Client>, hostname: string, rules: seq<FreqRule>, matches: Matcher)
      returns (posted: seq<string>, deleted: seq<string>, shutDown: seq<CheckTimer>, failure: Option<string>)
      modifies this
      ensures UpdateResult(timers, posted, deleted, shutDown, failure)
        == UpdateOf(containers, clients, hostname, rules, matches, old(timers))
    {
      var names := Names(containers);
      if names.None? {
        return [], [], [], Some("IndexError: list index out of range");
      }
      posted := AddTimers(containers, ClientNames(clients), rules, matches);
      deleted, shutDown, failure := RemoveStale(clients, hostname, names.value);
    }

    /** The first loop of `update()`. */
    method AddTimers(containers: seq<Container>, clientNames: seq<string>, rules: seq<FreqRule>, matches: Matcher)
      returns (posted: seq<string>)
      requires forall i :: 0 <= i < |containers| ==> |containers[i].names| > 0
      modifies this
      ensures AddResult(timers, posted) == AddFrom(containers, clientNames, rules, matches, old(timers))
    {
      posted := [];
      ghost var target := AddFrom(containers, clientNames, rules, matches, timers);
      var i := 0;
      assert containers[0..] == containers;
      while i < |containers|
        invariant 0 <= i <= |containers|
        invariant var rest := AddFrom(containers[i..], clientNames, rules, matches, timers);
          AddResult(rest.timers, posted + rest.posted) == target
      {
        AddFromStep(containers, i, clientNames, rules, matches, timers);
        var name := ContainerName(containers[i]).value;
        var freq := CheckFreq(rules, name, matches);
        ghost var post := if Truthy(freq) && name !in clientNames then [name] else [];
        ghost var t1 := if Truthy(freq) && name !in timers then timers[name := CheckTimer(freq.value, containers[i])] else timers;
        ghost var rest := AddFrom(containers[i + 1..], clientNames, rules, matches, t1);
        AppendAssoc(posted, post, rest.posted);
        ghost var before := posted;
        assert AddResult(rest.timers, (posted + post) + rest.posted) == target;
        if freq.Some? && freq.value != 0 {
          if name !in clientNames {
            posted := posted + [name];
            assert posted == before + post;
          } else {
            assert post == [];
          }
          if name !in timers {
            var _ := CreateCheckTimer(containers[i], freq.value);
          }
        } else {
          assert post == [];
        }
        assert posted == before + post;
        assert AddResult(rest.timers, posted + rest.posted) == target;
        assert timers == t1;
        i := i + 1;
      }
      assert containers[i..] == [];
      assert posted + [] == posted;
    }

    /** The second loop of `update()`. */
    method RemoveStale(clients: seq<Client>, hostname: string, names: seq<string>)
      returns (deleted: seq<string>, shutDown: seq<CheckTimer>, failure: Option<string>)
      modifies this
      ensures DeleteResult(timers, deleted, shutDown, failure) == DeleteFrom(clients, hostname, names, old(timers))
    {
      deleted, shutDown := [], [];
      var j := 0;
      assert clients[0..] == clients;
      ghost var removed := DeleteFrom(clients, hostname, names, timers);
      assert [] + removed.deleted == removed.deleted && [] + removed.shutDown == removed.shutDown;
      while j < |clients|
        invariant 0 <= j <= |clients|
        invariant removed == DeleteFrom(clients, hostname, names, old(timers))
        invariant var rest := DeleteFrom(clients[j..], hostname, names, timers);
          DeleteResult(rest.timers, deleted + rest.deleted, shutDown + rest.shutDown, rest.failure) == removed
      {
        DeleteFromStep(clients, j, hostname, names, timers);
        var c := clients[j];
        if c.address == hostname && c.name !in names {
          deleted := deleted + [c.name];
          if c.name !in timers {
            assert shutDown + [] == shutDown;
            return deleted, shutDown, Some("KeyError: " + c.name);
          }
          shutDown := shutDown + [timers[c.name]];
          timers := timers - {c.name};
        }
        j := j + 1;
      }
      assert clients[j..] == [];
      assert deleted + [] == deleted && shutDown + [] == shutDown;
      failure := None;
    }
  }

  lemma AppendAssoc(a: seq<string>, b: seq<string>, c: seq<string>)
    ensures a + (b + c) == (a + b) + c
  {
  }

  /** One step of the first loop, at container `i`. */
  lemma AddFromStep(cs: seq<Container>, i: nat, clientNames: seq<string>, rules: seq<FreqRule>, matches: Matcher,
                    timers: map<string, CheckTimer>)
    requires forall k :: 0 <= k < |cs| ==> |cs[k].names| > 0
    requires i < |cs|
    ensures var name := ContainerName(cs[i]).value;
      var freq := CheckFreq(rules, name, matches);
      var t1 := if Truthy(freq) && name !in timers then timers[name := CheckTimer(freq.value, cs[i])] else timers;
      var rest := AddFrom(cs[i + 1..], clientNames, rules, matches, t1);
      AddFrom(cs[i..], clientNames, rules, matches, timers)
        == AddResult(rest.timers, (if Truthy(freq) && name !in clientNames then [name] else []) + rest.posted)
  {
    assert cs[i..][1..] == cs[i + 1..];
    assert cs[i..][0] == cs[i];
  }

  /** One step of the second loop, at client `j`. */
  lemma DeleteFromStep(clients: seq<Client>, j: nat, hostname: string, names: seq<string>, timers: map<string, CheckTimer>)
    requires j < |clients|
    ensures var c := clients[j];
      DeleteFrom(clients[j..], hostname, names, timers) ==
        if !Stale(c, hostname, names) then DeleteFrom(clients[j + 1..], hostname, names, timers)
        else if c.name !in timers then DeleteResult(timers, [c.name], [], Some("KeyError: " + c.name))
        else
          var rest := DeleteFrom(clients[j + 1..], hostname, names, timers - {c.name});
          DeleteResult(rest.timers, [c.name] + rest.deleted, [timers[c.name]] + rest.shutDown, rest.failure)
  {
    assert clients[j..][1..] == clients[j + 1..];
    assert clients[j..][0] == clients[j];
  }

  // ---------------------------------------------------------------------
  // send_check_result

  /** The `output` of a check result: `OK`, or the JSON list of the task
      summaries that failed. */
  datatype CheckOutput = OkOutput | FailedTasks(results: seq<Summary>)

  /** The body posted to `/results`. */
  datatype CheckBody = CheckBody(source: string, name: string, output: CheckOutput, status: int)

  const CheckName := "monitor"

  /** The summaries whose result is neither `SUCCESS` nor `SKIPPED`, in
      order. */
  function Failures(ss: seq<Summary>): seq<Summary>
  {
    if |ss| == 0 then []
    else (if ss[0].result != "SUCCESS" && ss[0].result != "SKIPPED" then [ss[0]] else []) + Failures(ss[1..])
  }

  /** `send_check_result(container, report)`: `OK` with status 0 when no
      task failed, otherwise status 2 with the failed summaries; the source
      is the container's name, whose lookup may raise. */
  function CheckResultOf(c: Container, report: Report): (r: Result<CheckBody, string>)
    ensures r.Ok? <==> |c.names| > 0
    ensures r.Ok? ==> r.value.source == ContainerName(c).value && r.value.name == CheckName
    ensures r.Ok? && report.failed == 0 ==> r.value.output == OkOutput && r.value.status == 0
    ensures r.Ok? && report.failed != 0 ==> r.value.output == FailedTasks(Failures(report.results)) && r.value.status == 2
  {
    var output := if report.failed != 0 then FailedTasks(Failures(report.results)) else OkOutput;
    var status := if report.failed != 0 then 2 else 0;
    match ContainerName(c)
    case None => Err("IndexError: list index out of range")
    case Some(source) => Ok(CheckBody(source, CheckName, output, status))
  }

  /** A summary is listed exactly when it is in the report and its result is
      neither `SUCCESS` nor `SKIPPED`; lists of summaries are filtered
      piecewise, so the listing keeps the report's order. */
  lemma {:induction false} FailuresFilter(ss: seq<Summary>, more: seq<Summary>)
    ensures forall s :: s in Failures(ss) <==> s in ss && s.result != "SUCCESS" && s.result != "SKIPPED"
    ensures Failures(ss + more) == Failures(ss) + Failures(more)
    decreases |ss|
  {
    if |ss| == 0 {
      assert ss + more == more;
    } else {
      FailuresFilter(ss[1..], more);
      assert (ss + more)[1..] == ss[1..] + more;
      assert forall s :: s in ss <==> s == ss[0] || s in ss[1..];
      var head := if ss[0].result != "SUCCESS" && ss[0].result != "SKIPPED" then [ss[0]] else [];
      assert head + (Failures(ss[1..]) + Failures(more)) == (head + Failures(ss[1..])) + Failures(more);
    }
  }

  /** The number of summaries listed is the number of results that are
      neither `SUCCESS` nor `SKIPPED`. */
  lemma {:induction false} FailuresCount(ss: seq<Summary>)
    ensures |Failures(ss)| == |ss| - CountResult(ss, "SUCCESS") - CountResult(ss, "SKIPPED")
    decreases |ss|
  {
    if |ss| > 0 {
      FailuresCount(ss[1..]);
    }
  }

  /** For the report of a run, the check result is `OK` exactly when every
      task succeeded or was skipped, and otherwise lists one summary per
      failed task. */
  lemma CheckResultOfRun(c: Container, hostSet: string, routine: string, hosts: string,
                         tasks: seq<Task>, hostList: seq<Execution.Host>, st: Macros.RtState,
                         worlds: seq<Execution.World>, run: TaskRun)
    requires |c.names| > 0 && |worlds| == |tasks|
    ensures var log := RunTasks(tasks, hostList, st, worlds, run);
      var body := CheckResultOf(c, Report(hostSet, routine, hosts, log.passed, log.failed, log.summaries)).value;
      && (body.status == 0 <==> forall s :: s in log.summaries ==> s.result == "SUCCESS" || s.result == "SKIPPED")
      && (body.status != 0 ==> body.status == 2 && |body.output.results| == log.failed)
  {
    var log := RunTasks(tasks, hostList, st, worlds, run);
    RunCounts(tasks, hostList, st, worlds, run);
    FailuresCount(log.summaries);
    FailuresFilter(log.summaries, []);
    if log.failed == 0 {
      assert Failures(log.summaries) == [];
    } else {
      assert Failures(log.summaries)[0] in Failures(log.summaries);
    }
  }
}
