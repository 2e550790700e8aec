/** The discipline of pooled payload buffers, as a property of their whole history: every
    time one is handed out, read, or returned. */
module BufferLife {
  import opened Frames

  type Buffer = array<byte>

  datatype Event = Out(b: Buffer) | Read(b: Buffer) | Back(b: Buffer)

  /** Handed out and not returned. */
  ghost function OnLoan(log: seq<Event>): set<Buffer> {
    if log == [] then {}
    else
      var front := OnLoan(log[..|log| - 1]);
      match log[|log| - 1]
      case Out(b) => front + {b}
      case Read(_) => front
      case Back(b) => front - {b}
  }

  /** A buffer is handed out only if nobody holds it, and read and returned only by a holder. */
  ghost predicate Allowed(log: seq<Event>, e: Event) {
    match e
    case Out(b) => b !in OnLoan(log)
    case Read(b) => b in OnLoan(log)
    case Back(b) => b in OnLoan(log)
  }

  ghost predicate Disciplined(log: seq<Event>) {
    forall j :: 0 <= j < |log| ==> Allowed(log[..j], log[j])
  }

  lemma {:induction false} LogSnoc(log: seq<Event>, e: Event)
    ensures OnLoan(log + [e]) == match e
                                 case Out(b) => OnLoan(log) + {b}
                                 case Read(_) => OnLoan(log)
                                 case Back(b) => OnLoan(log) - {b}
    ensures Disciplined(log + [e]) <==> Disciplined(log) && Allowed(log, e)
  {
    assert (log + [e])[..|log|] == log;
    DisciplinedSnoc(log, e);
  }

  lemma {:induction false} DisciplinedSnoc(log: seq<Event>, e: Event)
    ensures Disciplined(log + [e]) <==> Disciplined(log) && Allowed(log, e)
  {
    var more := log + [e];
    assert more[..|log|] == log;
    forall j | 0 <= j < |log| ensures Allowed(more[..j], more[j]) <==> Allowed(log[..j], log[j]) {
      assert more[..j] == log[..j] && more[j] == log[j];
    }
    if Disciplined(more) {
      assert Allowed(more[..|log|], more[|log|]);
    }
  }

  /** On loan means: handed out at some moment and not returned since. */
  lemma {:induction false} OnLoanMeans(log: seq<Event>, b: Buffer)
    ensures b in OnLoan(log) <==>
            exists i :: 0 <= i < |log| && log[i] == Out(b) && forall k :: i < k < |log| ==> log[k] != Back(b)
  {
    if log != [] {
      var last := |log| - 1;
      var front := log[..last];
      OnLoanMeans(front, b);
      if b in OnLoan(log) && log[last] != Out(b) {
        var i :| 0 <= i < |front| && front[i] == Out(b) && forall k :: i < k < |front| ==> front[k] != Back(b);
        assert log[i] == Out(b);
        forall k | i < k < |log| ensures log[k] != Back(b) {
          assert k < last ==> log[k] == front[k];
        }
      }
      if i :| 0 <= i < |log| && log[i] == Out(b) && forall k :: i < k < |log| ==> log[k] != Back(b) {
        if i < last {
          assert front[i] == Out(b) && forall k :: i < k < |front| ==> front[k] == log[k];
        }
      }
    }
  }

  /** A buffer on loan at i is still on loan at j if it was not returned in between. */
  lemma {:induction false} StaysOut(log: seq<Event>, i: nat, j: nat, b: Buffer)
    requires i <= j <= |log| && b in OnLoan(log[..i])
    requires forall k :: i <= k < j ==> log[k] != Back(b)
    ensures b in OnLoan(log[..j])
    decreases j
  {
    if i < j {
      StaysOut(log, i, j - 1, b);
      assert log[..j][..j - 1] == log[..j - 1];
    }
  }

  /** A buffer not on loan at i is not on loan at j if it was not handed out in between. */
  lemma {:induction false} StaysIn(log: seq<Event>, i: nat, j: nat, b: Buffer)
    requires i <= j <= |log| && b !in OnLoan(log[..i])
    requires forall k :: i <= k < j ==> log[k] != Out(b)
    ensures b !in OnLoan(log[..j])
    decreases j
  {
    if i < j {
      StaysIn(log, i, j - 1, b);
      assert log[..j][..j - 1] == log[..j - 1];
    }
  }

  lemma {:induction false} AfterOut(log: seq<Event>, i: nat)
    requires i < |log|
    ensures log[i].Out? ==> log[i].b in OnLoan(log[..i + 1])
    ensures log[i].Back? ==> log[i].b !in OnLoan(log[..i + 1])
  {
    assert log[..i + 1] == log[..i] + [log[i]];
    LogSnoc(log[..i], log[i]);
  }

  /** One owner at a time: between two times a buffer is handed out it was returned. */
  lemma {:induction false} UniqueOwner(log: seq<Event>, i: nat, j: nat, b: Buffer)
    requires Disciplined(log) && i < j < |log| && log[i] == Out(b) == log[j]
    ensures exists k :: i < k < j && log[k] == Back(b)
  {
    assert Allowed(log[..j], log[j]);
    AfterOut(log, i);
    if forall k :: i < k < j ==> log[k] != Back(b) {
      StaysOut(log, i + 1, j, b);
    }
  }

  /** Returned once: between two returns of a buffer it was handed out. */
  lemma {:induction false} ReturnedOnce(log: seq<Event>, i: nat, j: nat, b: Buffer)
    requires Disciplined(log) && i < j < |log| && log[i] == Back(b) == log[j]
    ensures exists k :: i < k < j && log[k] == Out(b)
  {
    assert Allowed(log[..j], log[j]);
    AfterOut(log, i);
    if forall k :: i < k < j ==> log[k] != Out(b) {
      StaysIn(log, i + 1, j, b);
    }
  }

  /** Never read after it was returned, until it is handed out again. */
  lemma {:induction false} NotReadAfterReturn(log: seq<Event>, i: nat, j: nat, b: Buffer)
    requires Disciplined(log) && i < j < |log| && log[i] == Back(b) && log[j] == Read(b)
    ensures exists k :: i < k < j && log[k] == Out(b)
  {
    assert Allowed(log[..j], log[j]);
    AfterOut(log, i);
    if forall k :: i < k < j ==> log[k] != Out(b) {
      StaysIn(log, i + 1, j, b);
    }
  }
}
