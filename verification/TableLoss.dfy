/**
 Which tables the generator reports in full and right. Its search stops at the first Transitions list
 of an event, so an event with lists in two handlers loses the second, as in the coordinator's table
 (core/go/internal/sequencer/coordinator/state_machine.go); it looks only into blocks, so an event
 bound to a variable loses everything, as in the coordinator's transaction table
 (core/go/internal/sequencer/coordinator/transaction/state_machine.go); and it takes the first `If`
 of an entry for its guard, so an action's guard can stand in for the transition's.
 */
module TableLoss {
  import opened Collections
  import opened Text
  import opened Guards
  import opened Tables
  import opened TableText
  import opened TableRoundTrip

  /** No handler contributes a transition. */
  predicate NoListing(hs: seq<Handler>) { forall h <- hs :: h.listing.Some? ==> h.listing.value.targets == [] }

  /** No handler after the first that has a list contributes a transition. */
  predicate OneListing(hs: seq<Handler>) {
    if hs == [] then true
    else if hs[0].listing.None? then OneListing(hs[1..])
    else NoListing(hs[1..])
  }

  /** The guard reported is the transition's own: no action's comes first, or it is rewritten to the same. */
  predicate OwnGuard(t: Target) {
    t.cond.None? || !t.nested || (t.own.Some? && Simplify(t.own.value) == Simplify(t.cond.value.text))
  }

  predicate OwnGuards(hs: seq<Handler>) {
    forall h <- hs :: h.listing.Some? ==> forall t <- h.listing.value.targets :: OwnGuard(t)
  }

  predicate Reported(e: EventEntry) {
    if e.Inline? then OneListing(e.handlers) && OwnGuards(e.handlers) else NoListing(e.handlers)
  }

  predicate NothingLost(t: Table) {
    forall s <- t.states :: s.events.Some? ==> forall e <- s.events.value.events :: Reported(e)
  }

  lemma {:induction false} NoneListed(hs: seq<Handler>, from: string, event: string)
    ensures HandlersMean(hs, from, event) == [] <==> NoListing(hs)
  {
    if hs != [] { NoneListed(hs[1..], from, event); }
  }

  lemma {:induction false} SeenRight(ts: seq<Target>, from: string, event: string)
    requires forall t <- ts :: TargetOk(t)
    ensures TargetsSeen(ts, from, event) == TargetsMean(ts, from, event) <==> forall t <- ts :: OwnGuard(t)
  {
    hide Silent, Balanced, TargetBody, Simplify;
    if ts != [] {
      assert ts[0] in ts && forall t <- ts[1..] :: t in ts;
      SeenRight(ts[1..], from, event);
      assert TargetSeen(ts[0], from, event) == TargetMeans(ts[0], from, event) <==> OwnGuard(ts[0]);
      assert forall t <- ts :: t == ts[0] || t in ts[1..];
      ConsEqual(TargetSeen(ts[0], from, event), TargetMeans(ts[0], from, event),
                TargetsSeen(ts[1..], from, event), TargetsMean(ts[1..], from, event));
    }
  }

  lemma ConsEqual(x: Transition, y: Transition, a: seq<Transition>, b: seq<Transition>)
    ensures [x] + a == [y] + b <==> x == y && a == b
  {
    assert ([x] + a)[1..] == a && ([y] + b)[1..] == b;
    assert [x] + a == [y] + b ==> ([x] + a)[0] == ([y] + b)[0];
  }

  predicate ListingsOk(hs: seq<Handler>) {
    forall h <- hs :: h.listing.Some? ==> forall t <- h.listing.value.targets :: TargetOk(t)
  }

  lemma {:induction false} FirstIsPart(hs: seq<Handler>, from: string, event: string)
    requires ListingsOk(hs)
    ensures var first, all := FirstSeen(hs, from, event), HandlersMean(hs, from, event);
      |first| <= |all| && (first == all <==> OneListing(hs) && OwnGuards(hs))
  {
    hide TargetOk, OwnGuard;
    if hs != [] {
      assert hs[0] in hs && forall h <- hs[1..] :: h in hs;
      assert forall h <- hs :: h == hs[0] || h in hs[1..];
      if hs[0].listing.None? {
        FirstIsPart(hs[1..], from, event);
      } else {
        var ts, rest := hs[0].listing.value.targets, HandlersMean(hs[1..], from, event);
        SeenRight(ts, from, event);
        NoneListed(hs[1..], from, event);
        Longer(TargetsSeen(ts, from, event), TargetsMean(ts, from, event), rest);
      }
    }
  }

  lemma Longer(a: seq<Transition>, b: seq<Transition>, rest: seq<Transition>)
    requires |a| == |b|
    ensures a == b + rest <==> a == b && rest == []
  {
    assert a == b + rest ==> |rest| == 0;
    assert rest == [] ==> b + rest == b;
  }

  /** Two lists in two parts, each part of the one at most as long as that of the other. */
  lemma PartsEqual(a: seq<Transition>, b: seq<Transition>, c: seq<Transition>, d: seq<Transition>)
    requires |a| <= |c| && |b| <= |d|
    ensures a + b == c + d <==> a == c && b == d
  {
    if a + b == c + d {
      assert |a| == |c|;
      assert (a + b)[..|a|] == a && (c + d)[..|a|] == c;
      assert (a + b)[|a|..] == b && (c + d)[|a|..] == d;
    }
  }

  lemma EventLoses(e: EventEntry, from: string)
    requires EventOk(e)
    ensures var first, all := EventMean(e, from, false), EventMean(e, from, true);
      |first| <= |all| && (first == all <==> Reported(e))
  {
    hide FirstSeen, HandlersMean, OneListing, NoListing, OwnGuards, TargetOk, EventSeparator, Noise, NamedValue;
    if e.Inline? { FirstIsPart(e.handlers, from, "Event_" + e.name); }
    NoneListed(e.handlers, from, "Event_" + e.name);
  }

  lemma {:induction false} EventsLose(es: seq<EventEntry>, from: string)
    requires forall e <- es :: EventOk(e)
    ensures var first, all := EventsMean(es, from, false), EventsMean(es, from, true);
      |first| <= |all| && (first == all <==> forall e <- es :: Reported(e))
  {
    hide EventMean, Reported, EventOk;
    if es != [] {
      EventLoses(es[0], from);
      EventsLose(es[1..], from);
      PartsEqual(EventMean(es[0], from, false), EventsMean(es[1..], from, false),
                 EventMean(es[0], from, true), EventsMean(es[1..], from, true));
      assert es == [es[0]] + es[1..];
    }
  }

  function StateMean(s: StateEntry, all: bool): (r: seq<Transition>) {
    if s.events.Some? then EventsMean(s.events.value.events, "State_" + s.name, all) else []
  }

  lemma {:induction false} StatesLose(ss: seq<StateEntry>)
    requires forall s <- ss :: StateOk(s)
    ensures var first, all := StatesMean(ss, false), StatesMean(ss, true);
      |first| <= |all| &&
      (first == all <==> forall s <- ss :: s.events.Some? ==> forall e <- s.events.value.events :: Reported(e))
  {
    hide EventsMean, Reported, EventOk, StateSeparator, Noise;
    if ss != [] {
      assert ss[0] in ss;
      if ss[0].events.Some? { EventsLose(ss[0].events.value.events, "State_" + ss[0].name); }
      StatesLose(ss[1..]);
      PartsEqual(StateMean(ss[0], false), StatesMean(ss[1..], false), StateMean(ss[0], true),
          StatesMean(ss[1..], true));
      assert ss == [ss[0]] + ss[1..];
    }
  }

  /**
   Every transition of the table is reported, and with its own guard, exactly when no event lists
   transitions in two handlers, none is bound to a variable whose handlers list any, and no action's
   guard stands before or in place of a transition's.
   */
  lemma AllReportedExactly(pre: string, t: Table, post: string)
    requires TableOk(t) && Unmarked(pre)
    ensures ParseMachine(pre + (DECLARATION + (Braced(TableBody(t)) + post))) == StatesMean(t.states, true)
       <==> NothingLost(t)
  {
    hide ParseMachine, Unmarked, Reported, StatesMean, StateOk, StateSeparator;
    TableReadsBack(pre, t, post);
    StatesLose(t.states);
  }

  function Unguarded(lead: string, to: string): Handler {
    Handler(lead, "", Some(Listing(" ", [Target("", "", " ", to, None, false, None, false, "", "")], "", "")))
  }

  function OneEventTable(state: string, e: EventEntry): Table {
    Table([StateEntry("", state, " ", "", Some(EventMap(" ", true, [e], "", "")))], "")
  }

  /** One event with two handlers that each list a transition. */
  function TwoLists(state: string, event: string, a: string, b: string): Table {
    OneEventTable(state, Inline("", true, event, " ", "", [Unguarded("", a), Unguarded(", ", b)], ""))
  }

  /** One event bound to a variable whose handler lists a transition. */
  function Variable(state: string, event: string, handler: string, a: string): Table {
    OneEventTable(state, Named("", false, event, " ", handler + ",", [Unguarded("", a)]))
  }

  lemma Empties(field: string)
    ensures NoBrace("") && Noise("", field) && Follower("") && EventSeparator("") && StateSeparator("") &&
      AllSpace(" ") && Balanced("", 0)
  {
  }

  lemma OneEventOk(state: string, e: EventEntry)
    requires Word(state) && EventOk(e)
    ensures TableOk(OneEventTable(state, e))
  {
    hide Word, Noise, Balanced, NoBrace, EventSeparator, StateSeparator, AllSpace, EventOk;
    Empties("Events");
  }

  lemma TwoListsOk(state: string, event: string, a: string, b: string)
    requires Word(state) && Word(event) && Word(a) && Word(b)
    ensures TableOk(TwoLists(state, event, a, b))
  {
    hide Word, Noise, Silent, Balanced, NoBrace, EventSeparator, StateSeparator, AllSpace, Searchable, HandlerOk,
         TableOk;
    Empties("Transitions");
    Quiet();
    UnguardedOk("", a);
    UnguardedOk(", ", b);
    OneEventOk(state, Inline("", true, event, " ", "", [Unguarded("", a), Unguarded(", ", b)], ""));
  }

  lemma Quiet()
    ensures Noise(", ", "Transitions")
  {
    FieldNames();
    SilentWithout(", ", "Transitions");
    BalancedPlain(", ");
  }

  lemma UnguardedOk(lead: string, to: string)
    requires Word(to) && Noise(lead, "Transitions")
    ensures HandlerOk(Unguarded(lead, to))
  {
    hide Word, Silent, Balanced, NoBrace, AllSpace, Searchable;
    Empties("To");
    Empties("If");
    Empties("Transitions");
    var t := Target("", "", " ", to, None, false, None, false, "", "");
    assert TargetBody(t) == "To: State_" + to;
    WordsBalanced("To: State_", to);
  }

  lemma WordsBalanced(prefix: string, name: string)
    requires NoBrace(prefix) && Word(name)
    ensures Balanced(prefix + name, 0)
  {
    BalancedPlain(prefix + name);
  }

  /** A variable is no key: there is no colon after it. */
  lemma VariableOk(handler: string)
    requires Word(handler)
    ensures NamedValue(handler + ",")
  {
    var v := handler + ",";
    assert v[0] == handler[0] && handler[0] in handler;
    assert forall c <- v :: IsWord(c) || c == ',';
    forall i | 0 <= i < |v| ensures MatchEventKey(v[i..]) == None {
      assert forall c <- v[i..] :: c in v;
      NoColonNoKey(v[i..]);
    }
  }

  lemma NoColonNoKey(s: string)
    requires ':' !in s
    ensures MatchEventKey(s) == None
  {
    hide LeadingWord;
    NoColonNoWordKey(s);
    if StartsWith(s, COMMON) {
      assert forall c <- s[|COMMON|..] :: c in s;
      NoColonNoWordKey(s[|COMMON|..]);
    }
  }

  lemma NoColonNoWordKey(s: string)
    requires ':' !in s
    ensures MatchKey(s, "Event_") == None
  {
    var w := LeadingWord(s);
    LStripSuffix(s[|w|..]);
    var r := LStrip(s[|w|..]);
    assert r != [] ==> r[0] in s[|w|..];
    assert forall c <- s[|w|..] :: c in s;
  }

  lemma VariableTableOk(state: string, event: string, handler: string, a: string)
    requires Word(state) && Word(event) && Word(handler)
    ensures TableOk(Variable(state, event, handler, a))
  {
    hide Word, NamedValue, EventSeparator, StateSeparator, AllSpace, TableOk, Noise;
    Empties("Transitions");
    VariableOk(handler);
    OneEventOk(state, Named("", false, event, " ", handler + ",", [Unguarded("", a)]));
  }

  /** The second list of an event never reaches the diagrams. */
  lemma SecondListIsLost(pre: string, post: string, state: string, event: string, a: string, b: string)
    requires Unmarked(pre) && Word(state) && Word(event) && Word(a) && Word(b)
    ensures var t := TwoLists(state, event, a, b);
      var s, e := "State_" + state, "Event_" + event;
      var read := ParseMachine(pre + (DECLARATION + (Braced(TableBody(t)) + post)));
      read == [Transition(s, e, "State_" + a, None)] &&
      StatesMean(t.states, true) == read + [Transition(s, e, "State_" + b, None)]
  {
    hide ParseMachine, TableBody, TableOk, Unmarked, Word;
    TwoListsOk(state, event, a, b);
    TableReadsBack(pre, TwoLists(state, event, a, b), post);
    TwoListsMean(state, event, a, b);
  }

  /** The transitions of an event bound to a variable never reach the diagrams. */
  lemma VariableIsLost(pre: string, post: string, state: string, event: string, handler: string, a: string)
    requires Unmarked(pre) && Word(state) && Word(event) && Word(handler)
    ensures var t := Variable(state, event, handler, a);
      ParseMachine(pre + (DECLARATION + (Braced(TableBody(t)) + post))) == [] &&
      StatesMean(t.states, true) == [Transition("State_" + state, "Event_" + event, "State_" + a, None)]
  {
    hide ParseMachine, TableBody, TableOk, Unmarked, Word;
    VariableTableOk(state, event, handler, a);
    var t := Variable(state, event, handler, a);
    TableReadsBack(pre, t, post);
    var e := t.states[0].events.value.events[0];
    OneEventMeans(state, e, false);
    OneEventMeans(state, e, true);
    OneTarget("", a, "State_" + state, "Event_" + event);
  }

  lemma OneEventMeans(state: string, e: EventEntry, all: bool)
    ensures StatesMean(OneEventTable(state, e).states, all) == EventMean(e, "State_" + state, all)
  {
    hide EventMean;
    var t := OneEventTable(state, e);
    var es := t.states[0].events.value.events;
    assert es[1..] == [] && EventsMean(es[1..], "State_" + state, all) == [];
    assert EventsMean(es, "State_" + state, all) == EventMean(e, "State_" + state, all);
    assert t.states[1..] == [] && StatesMean(t.states[1..], all) == [];
  }

  lemma OneTarget(lead: string, to: string, s: string, e: string)
    ensures TargetsMean(Unguarded(lead, to).listing.value.targets, s, e) == [Transition(s, e, "State_" + to, None)]
    ensures HandlersMean([Unguarded(lead, to)], s, e) == [Transition(s, e, "State_" + to, None)]
  {
    var ts := Unguarded(lead, to).listing.value.targets;
    assert TargetsMean(ts[1..], s, e) == [];
    assert [Unguarded(lead, to)][1..] == [];
  }

  lemma TwoListsMean(state: string, event: string, a: string, b: string)
    ensures var t := TwoLists(state, event, a, b);
      var s, e := "State_" + state, "Event_" + event;
      StatesMean(t.states, false) == [Transition(s, e, "State_" + a, None)] &&
      StatesMean(t.states, true) == [Transition(s, e, "State_" + a, None), Transition(s, e, "State_" + b, None)]
  {
    var t := TwoLists(state, event, a, b);
    var s, e := "State_" + state, "Event_" + event;
    var entry := t.states[0].events.value.events[0];
    OneTarget(", ", b, s, e);
    OneTarget("", a, s, e);
    assert entry.handlers[1..] == [Unguarded(", ", b)];
    OneEventMeans(state, entry, false);
    OneEventMeans(state, entry, true);
  }

  // ---- a guard that is not the transition's ----

  /** `{To: State_X, Actions: []ActionRule{{If: guard_g, Action: action_a}}}` */
  function GuardedAction(to: string, g: string, a: string): Target {
    Target("", "", " ", to, Some(Cond(" ", "guard_" + g)), true, None, false,
           ", Actions: []ActionRule{{", ", Action: action_" + a + "}}")
  }

  lemma GuardedActionOk(to: string, g: string, a: string)
    requires Word(to) && Word(g) && Word(a)
    ensures TargetOk(GuardedAction(to, g, a))
  {
    hide Word, Silent, Balanced, AllSpace, Searchable, Value;
    FieldNames();
    Empties("To");
    Empties("If");
    GuardWord(g);
    ActionsSilent();
    GuardedActionBalanced(to, g, a);
  }

  lemma GuardWord(g: string)
    requires Word(g)
    ensures Value("guard_" + g)
  {
    hide Scanned;
    var w := "guard_" + g;
    assert AllWord("guard_") && AllWord(w);
    WordIsArgument(w);
    assert w[0] in w && w[|w| - 1] in w && forall c <- w :: IsWord(c);
    ArgumentScanned(w, 0);
  }

  lemma ActionsSilent()
    ensures Silent(", Actions: []ActionRule{{", "If")
  {
    FieldNames();
    SilentWithout(", Actions: []ActionRule{{", "If");
  }

  lemma GuardedActionBalanced(to: string, g: string, a: string)
    requires Word(to) && Word(g) && Word(a)
    ensures Balanced(TargetBody(GuardedAction(to, g, a)), 0)
  {
    hide Balanced, ToField, IfField;
    var t := GuardedAction(to, g, a);
    var actions, action := ", Actions: []ActionRule", ", Action: action_" + a;
    FieldsPlain(t, to, g, a);
    RulesBalanced(ToField(t) + actions, IfField(t.cond.value) + action);
    ActionsMid();
    RulesShape(ToField(t), actions, IfField(t.cond.value), action);
    assert t.mid == actions + "{{" && t.trail == action + "}}";
  }

  lemma ActionsMid()
    ensures ", Actions: []ActionRule{{" == ", Actions: []ActionRule" + "{{"
  {
  }

  lemma FieldsPlain(t: Target, to: string, g: string, a: string)
    requires Word(to) && Word(g) && Word(a) && t == GuardedAction(to, g, a)
    ensures NoBrace(ToField(t) + ", Actions: []ActionRule") &&
      NoBrace(IfField(t.cond.value) + (", Action: action_" + a))
  {
    hide NoBrace, Word;
    Bits();
    WordPlain(to);
    WordPlain(g);
    WordPlain(a);
    NoBraceJoin("State_", to);
    NoBraceJoin(" ", "State_" + to);
    NoBraceJoin("To:", " " + ("State_" + to));
    NoBraceJoin(ToField(t), ", Actions: []ActionRule");
    NoBraceJoin("guard_", g);
    NoBraceJoin(" ", "guard_" + g);
    NoBraceJoin("If:", " " + ("guard_" + g));
    NoBraceJoin(", Action: action_", a);
    NoBraceJoin(IfField(t.cond.value), ", Action: action_" + a);
  }

  lemma Bits()
    ensures NoBrace("State_") && NoBrace(" ") && NoBrace("To:") && NoBrace("guard_") && NoBrace("If:")
    ensures NoBrace(", Actions: []ActionRule") && NoBrace(", Action: action_")
  {
  }

  lemma WordPlain(w: string)
    requires Word(w)
    ensures NoBrace(w)
  {
  }

  lemma NoBraceJoin(x: string, y: string)
    requires NoBrace(x) && NoBrace(y)
    ensures NoBrace(x + y)
  {
  }

  lemma RulesBalanced(head: string, rule: string)
    requires NoBrace(head) && NoBrace(rule)
    ensures Balanced(head + Braced(Braced(rule)), 0)
  {
    BalancedPlain(head);
    BalancedPlain(rule);
    BalancedBraced(rule);
    BalancedBraced(Braced(rule));
    BalancedAppend(head, Braced(Braced(rule)), 0);
  }

  lemma RulesShape(x: string, m: string, i: string, q: string)
    ensures "" + (x + (m + "{{" + (i + (q + "}}")))) == x + m + Braced(Braced(i + q))
  {
  }

  /** A transition without a guard whose action has one is reported with the action's guard. */
  lemma ActionGuardIsBorrowed(to: string, g: string, a: string, from: string, event: string)
    requires Word(to) && Word(g) && Word(a)
    ensures var t := GuardedAction(to, g, a);
      && TargetMeans(t, from, event).guard == None && !OwnGuard(t)
      && TransitionOf(Braced(TargetBody(t)), from, event) == [Transition(from, event, "State_" + to, Some(g))]
  {
    hide TransitionOf, TargetBody, Word, TargetOk, Simplify;
    var t := GuardedAction(to, g, a);
    GuardedActionOk(to, g, a);
    TargetRead(t, from, event);
    AtomOfWord(g);
    SimplifyRendersInfix(Atom(g));
    assert GoText(Atom(g)) == "guard_" + g;
  }

  lemma AtomOfWord(g: string)
    requires Word(g)
    ensures WellFormed(Atom(g)) && Infix(Atom(g)) == g
  {
  }
}
