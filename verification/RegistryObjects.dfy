/** The Server's registry as an object (server.go): its sets of listeners and connections and
    its done flag. Each method is one region under the server's mutex and is proved to take
    the steps of the machine in Registry, whose invariant is part of `Valid`. */
module RegistryObjects {
  import opened Frames
  import R = Registry

  datatype ConnState = Active | Idle

  /** serverConn as the registry sees it: the state its loop publishes, and shutdown. */
  class Conn {
    var state: ConnState
    var shutdown: bool
    ghost var closes: nat

    constructor ()
      ensures state == Idle && !shutdown && closes == 0
    {
      state := Idle;
      shutdown := false;
      closes := 0;
    }

    /** close: only the first call closes the channel. */
    method Close()
      modifies this`shutdown, this`closes
      ensures shutdown && closes == if old(shutdown) then old(closes) else old(closes) + 1
    {
      if !shutdown {
        shutdown := true;
        closes := closes + 1;
      }
    }
  }

  ghost predicate Shows(c: Conn, r: R.ConnRec)
    reads c
  {
    c.shutdown == r.shutdown && c.closes == r.closes
  }

  ghost predicate Views(made: seq<Conn>, recs: seq<R.ConnRec>)
    reads set c | c in made
  {
    |made| == |recs| && forall i :: 0 <= i < |made| ==> Shows(made[i], recs[i])
  }

  ghost predicate Distinct(made: seq<Conn>) {
    forall i, j :: 0 <= i < j < |made| ==> made[i] != made[j]
  }

  /** The set holds the connections that the machine's set numbers. */
  ghost predicate Tracks(connections: set<Conn>, made: seq<Conn>, numbers: set<nat>) {
    && (forall c :: c in connections ==> c in made)
    && (forall i :: i in numbers ==> i < |made|)
    && (forall i :: 0 <= i < |made| ==> (made[i] in connections <==> i in numbers))
  }

  lemma {:induction false} TracksLess(connections: set<Conn>, made: seq<Conn>, numbers: set<nat>, i: nat)
    requires Tracks(connections, made, numbers) && Distinct(made) && i < |made|
    ensures Tracks(connections - {made[i]}, made, numbers - {i})
  {
  }

  lemma {:induction false} TracksEmpty(connections: set<Conn>, made: seq<Conn>, numbers: set<nat>)
    requires Tracks(connections, made, numbers)
    ensures connections == {} <==> numbers == {}
  {
    if c :| c in connections {
      var i :| 0 <= i < |made| && made[i] == c;
      assert i in numbers;
    }
  }

  class Server {
    var done: bool
    var listeners: set<nat>
    var connections: set<Conn>
    ghost var made: seq<Conn>
    ghost var model: R.Reg

    ghost function Made(): set<Conn>
      reads this
    {
      set c | c in made
    }

    ghost predicate Valid()
      reads this, Made()
    {
      && R.RegInv(model)
      && done == model.done && listeners == model.listeners
      && Distinct(made) && Views(made, model.recs) && Tracks(connections, made, model.conns)
    }

    constructor ()
      ensures Valid() && R.Init(model) && made == []
    {
      done := false;
      listeners := {};
      connections := {};
      made := [];
      model := R.Reg(false, 0, {}, {}, [], [], []);
    }

    /** The machine moves. */
    ghost method Step(a: R.Step)
      requires R.RegInv(model) && R.Enabled(model, a)
      modifies this`model
      ensures R.RegInv(model) && R.Enabled(old(model), a) && model == R.Apply(old(model), a)
    {
      R.RegInvStep(model, a);
      model := R.Apply(model, a);
    }

    /** addConnection, unless the server is done. */
    method AddConnection(c: Conn, ghost i: nat) returns (ok: bool)
      requires Valid() && i < |made| && made[i] == c && model.recs[i].phase.Fresh?
      modifies this`connections, this`model
      ensures Valid() && model == R.Apply(old(model), R.Add(i)) && ok == !done
      ensures connections == if ok then old(connections) + {c} else old(connections)
    {
      if done {
        ok := false;
      } else {
        connections := connections + {c};
        ok := true;
      }
      Step(R.Add(i));
    }

    /** The object newConn makes. */
    method NewRecord() returns (c: Conn)
      requires Valid()
      modifies this`made, this`model
      ensures Valid() && fresh(c) && !c.shutdown && made == old(made) + [c] && model == R.Apply(old(model), R.NewConn)
    {
      c := new Conn();
      made := made + [c];
      Step(R.NewConn);
    }

    /** newConn: a connection that cannot be added is closed. */
    method NewConn() returns (c: Conn?)
      requires Valid()
      modifies this`connections, this`made, this`model
      ensures Valid() && (c == null <==> done)
      ensures c != null ==> fresh(c) && connections == old(connections) + {c} && !c.shutdown
      ensures c == null ==> connections == old(connections)
    {
      ghost var i := |made|;
      var c' := NewRecord();
      var ok := AddConnection(c', i);
      if !ok {
        c'.Close();
        Step(R.Refuse(i));
        return null;
      }
      return c';
    }

    /** delConnection, at the end of the connection's run. */
    method DelConnection(c: Conn, ghost i: nat)
      requires Valid() && i < |made| && made[i] == c && model.recs[i].phase.Ending?
      modifies this`connections, this`model
      ensures Valid() && model == R.Apply(old(model), R.Delete(i)) && connections == old(connections) - {c}
    {
      connections := connections - {c};
      Step(R.Delete(i));
    }

    /** countConnection, which Shutdown compares with zero. */
    method CountConnection() returns (n: nat)
      requires Valid()
      ensures n == |connections| && (n == 0 <==> model.conns == {})
    {
      n := |connections|;
      TracksEmpty(connections, made, model.conns);
    }

    /** closeListeners, in any order: all are closed and forgotten, and the result is the error
        of one that failed, if any did. */
    method CloseListeners(errors: map<nat, nat>) returns (err: Option<nat>)
      modifies this`listeners
      ensures listeners == {}
      ensures err.None? <==> forall l :: l in old(listeners) ==> l !in errors
      ensures err.Some? ==> exists l :: l in old(listeners) && l in errors && errors[l] == err.value
    {
      err := None;
      while listeners != {}
        invariant listeners <= old(listeners)
        invariant err.None? <==> forall l :: l in old(listeners) - listeners ==> l !in errors
        invariant err.Some? ==> exists l :: l in old(listeners) && l in errors && errors[l] == err.value
      {
        var l :| l in listeners;
        if l in errors && err.None? {
          err := Some(errors[l]);
        }
        listeners := listeners - {l};
      }
    }

    /** The loops of Close and closeIdleConns over the connections, in any order: each is closed
        and removed, but in the second an active one is skipped. */
    method CloseConns(idleOnly: bool, ghost recs: seq<R.ConnRec>, ghost numbers: set<nat>)
      returns (ghost closed: set<nat>)
      requires Distinct(made) && Views(made, recs) && Tracks(connections, made, numbers)
      modifies this`connections, Made()`shutdown, Made()`closes
      ensures closed == set i | i in numbers && (idleOnly ==> made[i].state == Idle)
      ensures Views(made, R.CloseSome(recs, closed)) && Tracks(connections, made, numbers - closed)
    {
      closed := {};
      var todo := connections;
      ghost var left := numbers;
      assert R.CloseSome(recs, closed) == recs;
      while todo != {}
        invariant left <= numbers && Tracks(todo, made, left)
        invariant forall i :: i in closed <==> i in numbers && i !in left && (idleOnly ==> made[i].state == Idle)
        invariant Tracks(connections, made, numbers - closed)
        invariant Views(made, R.CloseSome(recs, closed))
      {
        var c :| c in todo;
        ghost var i :| 0 <= i < |made| && made[i] == c;
        if !idleOnly || c.state == Idle {
          CloseConn(c, recs, closed, numbers, i);
          closed := closed + {i};
        }
        TracksLess(todo, made, left, i);
        todo := todo - {c};
        left := left - {i};
      }
      TracksEmpty(todo, made, left);
    }

    /** One turn of those loops. */
    method CloseConn(c: Conn, ghost recs: seq<R.ConnRec>, ghost closed: set<nat>, ghost numbers: set<nat>, ghost i: nat)
      requires i < |made| && made[i] == c && i in numbers && i !in closed
      requires Distinct(made) && Views(made, R.CloseSome(recs, closed)) && Tracks(connections, made, numbers - closed)
      modifies this`connections, c`shutdown, c`closes
      ensures Views(made, R.CloseSome(recs, closed + {i})) && Tracks(connections, made, numbers - (closed + {i}))
    {
      c.Close();
      TracksLess(connections, made, numbers - closed, i);
      assert numbers - closed - {i} == numbers - (closed + {i});
      connections := connections - {c};
      forall j | 0 <= j < |made| ensures Shows(made[j], R.CloseSome(recs, closed + {i})[j]) {
        assert old(Shows(made[j], R.CloseSome(recs, closed)[j]));
      }
    }

    /** Close: done, no listener, every connection closed and forgotten. */
    method Close(errors: map<nat, nat>) returns (err: Option<nat>)
      requires Valid()
      modifies this`done, this`listeners, this`connections, this`model, Made()`shutdown, Made()`closes
      ensures Valid() && done && connections == {} && listeners == {}
      ensures model == R.Apply(old(model), R.Close)
      ensures err.None? <==> forall l :: l in old(listeners) ==> l !in errors
    {
      done := true;
      err := CloseListeners(errors);
      ghost var closed := CloseConns(false, model.recs, model.conns);
      assert closed == model.conns;
      TracksEmpty(connections, made, model.conns - closed);
      Step(R.Close);
    }

    /** The beginning of Shutdown. */
    method BeginShutdown(errors: map<nat, nat>) returns (err: Option<nat>)
      requires Valid()
      modifies this`done, this`listeners, this`model
      ensures Valid() && done && listeners == {} && connections == old(connections)
      ensures model == R.Apply(old(model), R.ShutdownStarts)
      ensures err.None? <==> forall l :: l in old(listeners) ==> l !in errors
    {
      done := true;
      err := CloseListeners(errors);
      Step(R.ShutdownStarts);
    }

    /** closeIdleConns: what is left is active. */
    method CloseIdleConns()
      requires Valid()
      modifies this`connections, this`model, Made()`shutdown, Made()`closes
      ensures Valid() && connections <= old(connections)
      ensures forall c :: c in connections <==> c in old(connections) && c.state == Active
    {
      assert forall c :: c in connections ==> c in made;
      ghost var closed := CloseConns(true, model.recs, model.conns);
      Step(R.CloseIdle(closed));
    }
  }
}
