/**
  The beverage vending controller of StatePattern.java.

  A `VendingMachine` holds one current state out of three and forwards each of
  four requests to it. The state answers with one console message and may ask
  the machine to switch to another state. Here a state is a value, its answer a
  `Reaction` (the message and the state it hands to `setState`, if any), and
  the machine a class whose `state` field is overwritten by `SetState`.
*/
module StatePattern {
  import opened Wrappers

  /** The three state objects the machine owns. */
  datatype MachineState = NoMoney | HasMoney | Sold

  /** The four requests a caller can make. */
  datatype Request = InsertMoney | EjectMoney | SelectBeverage | Vend

  /** What a state does with a request: the line it prints and the state it installs, if any. */
  datatype Reaction = Reaction(message: string, transition: Option<MachineState>)

  /** `SoldState`: only `vend` leaves the state, back to no money. */
  function SoldReacts(request: Request): (r: Reaction)
    ensures r.transition.Some? <==> request == Vend
    ensures request == Vend ==> r == Reaction("Vending...", Some(NoMoney))
  {
    match request
    case InsertMoney => Reaction("Please wait while vending.", None)
    case EjectMoney => Reaction("Too late buddy.", None)
    case SelectBeverage => Reaction("You've already selected a beverage.", None)
    case Vend => Reaction("Vending...", Some(NoMoney))
  }

  /** `NoMoneyState`: only `insertMoney` leaves the state, to has-money. */
  function NoMoneyReacts(request: Request): (r: Reaction)
    ensures r.transition.Some? <==> request == InsertMoney
    ensures request == InsertMoney ==> r == Reaction("Money inserted.", Some(HasMoney))
  {
    match request
    case InsertMoney => Reaction("Money inserted.", Some(HasMoney))
    case EjectMoney => Reaction("No money to eject.", None)
    case SelectBeverage => Reaction("No money.", None)
    case Vend => Reaction("No money. Also no selection.", None)
  }

  /** `HasMoneyState`: `ejectMoney` returns to no money, `selectBeverage` goes to sold. */
  function HasMoneyReacts(request: Request): (r: Reaction)
    ensures r.transition.Some? <==> request == EjectMoney || request == SelectBeverage
    ensures request == EjectMoney ==> r.transition == Some(NoMoney)
    ensures request == SelectBeverage ==> r.transition == Some(Sold)
  {
    match request
    case InsertMoney => Reaction("You already inserted money...", None)
    case EjectMoney => Reaction("Ejecting money...", Some(NoMoney))
    case SelectBeverage => Reaction("Beverage selected.", Some(Sold))
    case Vend => Reaction("You have not selected a beverage.", None)
  }

  /** The machine's forwarding: the current state object handles the request. */
  function React(state: MachineState, request: Request): (r: Reaction)
    ensures r.transition.Some? ==> r.transition.value != state
  {
    match state
    case NoMoney => NoMoneyReacts(request)
    case HasMoney => HasMoneyReacts(request)
    case Sold => SoldReacts(request)
  }

  /** The state the machine is in after one request. */
  function Next(state: MachineState, request: Request): MachineState
  {
    match React(state, request).transition
    case Some(target) => target
    case None => state
  }

  /** The sold state is entered only by selecting a beverage while money is in. */
  lemma SoldEnteredOnlyBySelecting(state: MachineState, request: Request)
    requires state != Sold && Next(state, request) == Sold
    ensures state == HasMoney && request == SelectBeverage
  {
  }

  /** The has-money state is entered only by inserting money while there is none. */
  lemma HasMoneyEnteredOnlyByInserting(state: MachineState, request: Request)
    requires state != HasMoney && Next(state, request) == HasMoney
    ensures state == NoMoney && request == InsertMoney
  {
  }

  /** The state changes exactly on the four moves of the transition table. */
  lemma ChangesOnlyOnTableMoves(state: MachineState, request: Request)
    ensures Next(state, request) != state <==>
      (state == NoMoney && request == InsertMoney) ||
      (state == HasMoney && (request == EjectMoney || request == SelectBeverage)) ||
      (state == Sold && request == Vend)
  {
  }

  /** The printed line tells which state handled which request: the twelve messages are distinct. */
  lemma MessageIdentifiesMove(s1: MachineState, q1: Request, s2: MachineState, q2: Request)
    requires React(s1, q1).message == React(s2, q2).message
    ensures s1 == s2 && q1 == q2
  {
  }

  /** The states passed through while serving `requests` from `start`, the start included. */
  function Visited(start: MachineState, requests: seq<Request>): (v: seq<MachineState>)
    ensures |v| == |requests| + 1 && v[0] == start
    decreases |requests|
  {
    if requests == [] then [start]
    else
      var before := Visited(start, requests[..|requests| - 1]);
      before + [Next(before[|before| - 1], requests[|requests| - 1])]
  }

  /** The state reached after serving `requests` from `start`. */
  function Final(start: MachineState, requests: seq<Request>): MachineState
  {
    var v := Visited(start, requests);
    v[|v| - 1]
  }

  /** The lines printed while serving `requests` from `start`, one per request. */
  function Outputs(start: MachineState, requests: seq<Request>): (out: seq<string>)
    ensures |out| == |requests|
    decreases |requests|
  {
    if requests == [] then []
    else
      var prefix := requests[..|requests| - 1];
      Outputs(start, prefix) + [React(Final(start, prefix), requests[|requests| - 1]).message]
  }

  /** Consecutive visited states are related by one step of the machine. */
  lemma {:induction false} VisitedStep(start: MachineState, requests: seq<Request>, k: nat)
    requires k < |requests|
    ensures Visited(start, requests)[k + 1] == Next(Visited(start, requests)[k], requests[k])
    decreases |requests|
  {
    var prefix := requests[..|requests| - 1];
    if k + 1 < |requests| {
      VisitedStep(start, prefix, k);
      assert Visited(start, requests)[..|requests|] == Visited(start, prefix);
    }
  }

  /** The k-th line is the one the k-th visited state prints for the k-th request. */
  lemma {:induction false} OutputAt(start: MachineState, requests: seq<Request>, k: nat)
    requires k < |requests|
    ensures Outputs(start, requests)[k] == React(Visited(start, requests)[k], requests[k]).message
    decreases |requests|
  {
    var prefix := requests[..|requests| - 1];
    assert Visited(start, requests)[..|requests|] == Visited(start, prefix);
    if k + 1 < |requests| {
      OutputAt(start, prefix, k);
    }
  }

  /** Between a state that is not `target` and a later one that is, some step enters `target`. */
  lemma {:induction false} EntryBetween(v: seq<MachineState>, a: nat, b: nat, target: MachineState)
    requires a < b < |v| && v[a] != target && v[b] == target
    ensures exists k :: a <= k < b && v[k] != target && v[k + 1] == target
    decreases b - a
  {
    if v[b - 1] != target {
      assert v[b - 1] != target && v[b] == target;
    } else {
      EntryBetween(v, a, b - 1, target);
    }
  }

  /**
    Between two vends from the sold state, the machine went through a purchase:
    money inserted while there was none, then a beverage selected.
  */
  lemma {:induction false} SoldRequiresPurchase(v: seq<MachineState>, requests: seq<Request>, i: nat, j: nat)
    requires |v| == |requests| + 1
    requires forall k {:trigger requests[k]} :: 0 <= k < |requests| ==> v[k + 1] == Next(v[k], requests[k])
    requires i < j < |requests|
    requires v[i] == Sold && requests[i] == Vend && v[j] == Sold
    ensures exists k1, k2 :: (i < k1 < k2 < j &&
      v[k1] == NoMoney && requests[k1] == InsertMoney &&
      v[k2] == HasMoney && requests[k2] == SelectBeverage)
  {
    assert v[i + 1] == NoMoney;
    EntryBetween(v, i + 1, j, Sold);
    var k2 :| i + 1 <= k2 < j && v[k2] != Sold && v[k2 + 1] == Sold;
    SoldEnteredOnlyBySelecting(v[k2], requests[k2]);
    EntryBetween(v, i + 1, k2, HasMoney);
    var k1 :| i + 1 <= k1 < k2 && v[k1] != HasMoney && v[k1 + 1] == HasMoney;
    HasMoneyEnteredOnlyByInserting(v[k1], requests[k1]);
  }

  /**
    Two vends cannot happen back to back: after a "Vending..." line, the next one
    is preceded by "Money inserted." and then "Beverage selected.".
  */
  lemma {:induction false} VendsSeparatedByPurchase(start: MachineState, requests: seq<Request>, i: nat, j: nat)
    requires i < j < |requests|
    requires Outputs(start, requests)[i] == "Vending..." && Outputs(start, requests)[j] == "Vending..."
    ensures exists k1, k2 :: (i < k1 < k2 < j &&
      Outputs(start, requests)[k1] == "Money inserted." &&
      Outputs(start, requests)[k2] == "Beverage selected.")
  {
    var v := Visited(start, requests);
    OutputAt(start, requests, i);
    OutputAt(start, requests, j);
    MessageIdentifiesMove(v[i], requests[i], Sold, Vend);
    MessageIdentifiesMove(v[j], requests[j], Sold, Vend);
    forall k | 0 <= k < |requests|
      ensures v[k + 1] == Next(v[k], requests[k])
    {
      VisitedStep(start, requests, k);
    }
    SoldRequiresPurchase(v, requests, i, j);
    var k1, k2 :| i < k1 < k2 < j &&
      v[k1] == NoMoney && requests[k1] == InsertMoney &&
      v[k2] == HasMoney && requests[k2] == SelectBeverage;
    OutputAt(start, requests, k1);
    OutputAt(start, requests, k2);
  }

  /** `VendingMachine`: owns the current state and forwards every request to it. */
  class VendingMachine {
    var state: MachineState
    /** Every request served so far, oldest first. */
    ghost var requests: seq<Request>
    /** Every line printed so far, oldest first. */
    ghost var log: seq<string>

    ghost predicate Valid()
      reads this
    {
      state == Final(NoMoney, requests) && log == Outputs(NoMoney, requests)
    }

    /** A new machine has no money in it. */
    constructor ()
      ensures Valid() && state == NoMoney && requests == [] && log == []
    {
      state := NoMoney;
      requests := [];
      log := [];
    }

    /** `setState`: installs the given state object. */
    method SetState(next: MachineState)
      modifies this`state
      ensures state == next
    {
      state := next;
    }

    /** Hands `request` to the current state, which prints and may call `SetState`. */
    method Forward(request: Request) returns (message: string)
      requires Valid()
      modifies this
      ensures Valid() && requests == old(requests) + [request] && log == old(log) + [message]
      ensures message == React(old(state), request).message
      ensures state == Next(old(state), request)
    {
      var reaction := React(state, request);
      message := reaction.message;
      if reaction.transition.Some? {
        SetState(reaction.transition.value);
      }
      assert (requests + [request])[..|requests|] == requests;
      requests := requests + [request];
      log := log + [message];
    }

    method InsertMoney() returns (message: string)
      requires Valid()
      modifies this
      ensures Valid() && requests == old(requests) + [Request.InsertMoney] && log == old(log) + [message]
      ensures message == React(old(state), Request.InsertMoney).message
      ensures old(state) == NoMoney ==> state == HasMoney && message == "Money inserted."
      ensures old(state) != NoMoney ==> state == old(state)
    {
      message := Forward(Request.InsertMoney);
    }

    method EjectMoney() returns (message: string)
      requires Valid()
      modifies this
      ensures Valid() && requests == old(requests) + [Request.EjectMoney] && log == old(log) + [message]
      ensures message == React(old(state), Request.EjectMoney).message
      ensures old(state) == HasMoney ==> state == NoMoney && message == "Ejecting money..."
      ensures old(state) != HasMoney ==> state == old(state)
    {
      message := Forward(Request.EjectMoney);
    }

    method SelectBeverage() returns (message: string)
      requires Valid()
      modifies this
      ensures Valid() && requests == old(requests) + [Request.SelectBeverage] && log == old(log) + [message]
      ensures message == React(old(state), Request.SelectBeverage).message
      ensures old(state) == HasMoney ==> state == Sold && message == "Beverage selected."
      ensures old(state) != HasMoney ==> state == old(state)
    {
      message := Forward(Request.SelectBeverage);
    }

    method Vend() returns (message: string)
      requires Valid()
      modifies this
      ensures Valid() && requests == old(requests) + [Request.Vend] && log == old(log) + [message]
      ensures message == React(old(state), Request.Vend).message
      ensures old(state) == Sold ==> state == NoMoney && message == "Vending..."
      ensures old(state) != Sold ==> state == old(state)
    {
      message := Forward(Request.Vend);
    }
  }

  /** The scenario of `StatePattern.main`: eject, vend, insert, select, vend on a new machine. */
  method Demo() returns (lines: seq<string>, last: MachineState)
    ensures lines == ["No money to eject.", "No money. Also no selection.", "Money inserted.",
                      "Beverage selected.", "Vending..."]
    ensures last == NoMoney
  {
    var machine := new VendingMachine();
    var m1 := machine.EjectMoney();
    var m2 := machine.Vend();
    var m3 := machine.InsertMoney();
    var m4 := machine.SelectBeverage();
    var m5 := machine.Vend();
    lines := [m1, m2, m3, m4, m5];
    last := machine.state;
  }
}
