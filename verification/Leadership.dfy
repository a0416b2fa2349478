/** Whether leader-only work may run right now: `Leadership` of src/pipeline/coordination.py. */
module Leadership {

  datatype Connection = Connected | Suspended | Lost

  /** What can happen to a process's leadership: the session changes state, or a tenure begins. */
  datatype Event = Change(state: Connection) | Began

  datatype Flags = Flags(connected: bool, tenureVoid: bool)

  const START := Flags(true, false)

  predicate MayWork(f: Flags) {
    f.connected && !f.tenureVoid
  }

  /** The flags once one more thing has happened. */
  function On(f: Flags, e: Event): Flags {
    match e
    case Change(Connected) => f.(connected := true)
    case Change(Suspended) => f.(connected := false)
    case Change(Lost) => Flags(false, true)
    case Began => f.(tenureVoid := false)
  }

  function FlagsOf(history: seq<Event>): Flags {
    if history == [] then START else On(FlagsOf(history[..|history| - 1]), history[|history| - 1])
  }

  /** Every time the session went away, it has come back since. */
  ghost predicate SessionUp(history: seq<Event>) {
    forall i :: 0 <= i < |history| && history[i].Change? && history[i].state != Connected ==>
      exists j :: i < j < |history| && history[j] == Change(Connected)
  }

  /** The session was lost, and no tenure has begun since. */
  ghost predicate LostThisTenure(history: seq<Event>) {
    exists i :: 0 <= i < |history| && history[i] == Change(Lost)
                && forall j :: i < j < |history| ==> history[j] != Began
  }

  /** The two flags say exactly whether the session is up, and whether this tenure lost it. */
  lemma {:induction false} FlagsExact(history: seq<Event>)
    ensures FlagsOf(history).connected <==> SessionUp(history)
    ensures FlagsOf(history).tenureVoid <==> LostThisTenure(history)
    ensures MayWork(FlagsOf(history)) <==> SessionUp(history) && !LostThisTenure(history)
  {
    if history != [] {
      var n := |history| - 1;
      FlagsExact(history[..n]);
      UpOneMore(history);
      LostOneMore(history);
    }
  }

  lemma UpOneMore(history: seq<Event>)
    requires history != []
    ensures var last := history[|history| - 1];
            SessionUp(history) <==> last == Change(Connected) || (SessionUp(history[..|history| - 1]) && last == Began)
  {
  }

  lemma LostOneMore(history: seq<Event>)
    requires history != []
    ensures var last := history[|history| - 1];
            LostThisTenure(history) <==>
            last == Change(Lost) || (LostThisTenure(history[..|history| - 1]) && last != Began)
  {
  }

  lemma FlagsOneMore(history: seq<Event>, e: Event)
    ensures FlagsOf(history + [e]) == On(FlagsOf(history), e)
  {
  }

  /** Each method is one section under the object's lock, so any interleaving of the listener
      with the leader's own calls is a sequence of them. */
  class Leadership {
    var connected: bool
    var voided: bool
    ghost var history: seq<Event>

    ghost predicate Valid()
      reads this
    {
      Flags(connected, voided) == FlagsOf(history)
    }

    constructor ()
      ensures Valid() && history == []
    {
      connected, voided, history := true, false, [];
    }

    /** A tenure begins only while the session is up. */
    method BeginTenure() returns (ok: bool)
      requires Valid()
      modifies this
      ensures Valid() && ok == SessionUp(old(history))
      ensures history == if ok then old(history) + [Began] else old(history)
    {
      FlagsExact(history);
      ok := connected;
      if ok {
        FlagsOneMore(history, Began);
        voided := false;
        history := history + [Began];
      }
    }

    method OnState(state: Connection)
      requires Valid()
      modifies this
      ensures Valid() && history == old(history) + [Change(state)]
    {
      FlagsOneMore(history, Change(state));
      match state {
        case Suspended => connected := false;
        case Lost => connected := false; voided := true;
        case Connected => connected := true;
      }
      history := history + [Change(state)];
    }

    method CanWork() returns (ok: bool)
      requires Valid()
      ensures ok <==> SessionUp(history) && !LostThisTenure(history)
    {
      FlagsExact(history);
      ok := connected && !voided;
    }

    method TenureVoid() returns (over: bool)
      requires Valid()
      ensures over <==> LostThisTenure(history)
    {
      FlagsExact(history);
      over := voided;
    }
  }
}
