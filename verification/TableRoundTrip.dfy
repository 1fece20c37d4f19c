/**
 Tables printed in the stateDefinitionsMap layout, and what the parsers make of them. Around the
 parts the parsers look for, a table may hold any other Go text: validators, actions, comments,
 line breaks, aligned values. That text has balanced braces and does not hold the field searched for.
 */
module TableRoundTrip {
  import opened Collections
  import opened Text
  import opened Guards
  import opened Tables
  import opened TableText

  /** An `If` field: any Go text, over several lines if its line breaks are in parentheses. */
  datatype Cond = Cond(gap: string, text: string)

  /**
   One `{To: State_X, If: guard}` entry; `to` is the part after "State_". `cond` is the first `If` in
   its text, before or after `To`: that of the transition, or one nested in its actions. `own` is
   the transition's guard.
   */
  datatype Target = Target(before: string, lead: string, toGap: string, to: string,
                           cond: Option<Cond>, nested: bool, own: Option<string>,
                           ifFirst: bool, mid: string, trail: string)

  /** A `Transitions: []Transition{…}` field. */
  datatype Listing = Listing(gap: string, targets: seq<Target>, after: string, trail: string)

  datatype Handler = Handler(lead: string, noise: string, listing: Option<Listing>)

  /** An event bound to handlers written in the table, or to a variable that stands for some. */
  datatype EventEntry =
    | Inline(lead: string, common: bool, name: string, gap: string, head: string, handlers: seq<Handler>, tail: string)
    | Named(lead: string, common: bool, name: string, gap: string, value: string, handlers: seq<Handler>)

  /** An `Events: map[EventType]EventHandlers{…}` field. */
  datatype EventMap = EventMap(gap: string, plural: bool, events: seq<EventEntry>, after: string, trail: string)

  datatype StateEntry = StateEntry(lead: string, name: string, gap: string, noise: string, events: Option<EventMap>)

  datatype Table = Table(states: seq<StateEntry>, after: string)

  // ---- the printed text ----

  function ToField(t: Target): string { "To:" + (t.toGap + ("State_" + t.to)) }

  function IfField(c: Cond): string { "If:" + (c.gap + c.text) }

  function TargetBody(t: Target): string {
    if t.cond.None? then t.lead + (ToField(t) + t.trail)
    else if t.ifFirst then t.lead + (IfField(t.cond.value) + (t.mid + (ToField(t) + t.trail)))
    else t.lead + (ToField(t) + (t.mid + (IfField(t.cond.value) + t.trail)))
  }

  function TargetText(t: Target): string { t.before + Braced(TargetBody(t)) }

  function TargetsText(ts: seq<Target>): string {
    if ts == [] then "" else TargetText(ts[0]) + TargetsText(ts[1..])
  }

  function ListingText(l: Listing): string {
    Opened("Transitions", l.gap, "[]Transition{", TargetsText(l.targets) + l.after + "}" + l.trail)
  }

  function HandlerText(h: Handler): string {
    h.lead + Braced(h.noise + if h.listing.Some? then ListingText(h.listing.value) else "")
  }

  function HandlersText(hs: seq<Handler>): string {
    if hs == [] then "" else HandlerText(hs[0]) + HandlersText(hs[1..])
  }

  function EventBody(e: EventEntry): string
    requires e.Inline?
  {
    e.head + "Handlers: []EventHandler" + Braced(HandlersText(e.handlers)) + e.tail
  }

  function EventValue(e: EventEntry): string { if e.Inline? then Braced(EventBody(e)) else e.value }

  function EventText(e: EventEntry): string {
    e.lead + ((if e.common then COMMON else "") + ("Event_" + e.name + ":" + (e.gap + EventValue(e))))
  }

  function EventsText(es: seq<EventEntry>): string {
    if es == [] then "" else EventText(es[0]) + EventsText(es[1..])
  }

  function EventMapText(m: EventMap): string {
    Opened("Events", m.gap, MapOpener(m.plural), EventsText(m.events) + m.after + "}" + m.trail)
  }

  function MapOpener(plural: bool): string { if plural then EVENT_OPENERS[0] else EVENT_OPENERS[1] }

  function StateBody(s: StateEntry): string {
    s.noise + if s.events.Some? then EventMapText(s.events.value) else ""
  }

  function StateText(s: StateEntry): string {
    s.lead + ("State_" + s.name + ":" + (s.gap + Braced(StateBody(s))))
  }

  function StatesText(ss: seq<StateEntry>): string {
    if ss == [] then "" else StateText(ss[0]) + StatesText(ss[1..])
  }

  function TableBody(t: Table): string { StatesText(t.states) + t.after }

  const DECLARATION := "var stateDefinitionsMap = StateDefinitions"

  // ---- what may stand around the parts ----

  /** Text with balanced braces that does not hold FIELD: */
  predicate Noise(s: string, field: string) { Balanced(s, 0) && Silent(s, field) }

  /** What may follow a value. */
  predicate Follower(s: string) { s != "" ==> s[0] == ',' || s[0] == '}' }

  /** Braces balance, and the text before a field does not hold it. */
  predicate TargetOk(t: Target) {
    && NoBrace(t.before) && Balanced(TargetBody(t), 0) && Silent(t.lead, "To") && Silent(t.lead, "If")
    && AllSpace(t.toGap) && Word(t.to) && Follower(t.trail)
    && (t.cond.None? ==> Silent(t.trail, "If") && t.own.None?)
    && (t.cond.Some? ==> CondOk(t) && (t.nested || t.own == Some(t.cond.value.text)))
  }

  predicate CondOk(t: Target)
    requires t.cond.Some?
  {
    && AllSpace(t.cond.value.gap) && Value(t.cond.value.text)
    && t.mid != "" && Follower(t.mid) && Silent(t.mid, if t.ifFirst then "To" else "If")
    && (t.ifFirst ==> Silent(IfField(t.cond.value) + [t.mid[0]], "To"))
  }

  predicate ListingOk(l: Listing) {
    AllSpace(l.gap) && (forall t <- l.targets :: TargetOk(t)) && NoBrace(l.after) && Balanced(l.trail, 0)
  }

  predicate HandlerOk(h: Handler) {
    && Noise(h.lead, "Transitions") && Noise(h.noise, "Transitions")
    && (h.listing.Some? ==> ListingOk(h.listing.value))
  }

  predicate EventOk(e: EventEntry) {
    && EventSeparator(e.lead) && Word(e.name) && AllSpace(e.gap)
    && (e.Inline? ==>
        Noise(e.head, "Transitions") && Noise(e.tail, "Transitions") && forall h <- e.handlers :: HandlerOk(h))
    && (e.Named? ==> NamedValue(e.value))
  }

  /** A value that is no block, with the comma after it. */
  predicate NamedValue(v: string) { EventSeparator(v) && v != "" && !IsSpace(v[0]) && v[|v| - 1] == ',' }

  predicate EventMapOk(m: EventMap) {
    AllSpace(m.gap) && (forall e <- m.events :: EventOk(e)) && EventSeparator(m.after) && Balanced(m.trail, 0)
  }

  predicate StateOk(s: StateEntry) {
    && StateSeparator(s.lead) && Word(s.name) && AllSpace(s.gap) && Noise(s.noise, "Events")
    && (s.events.Some? ==> EventMapOk(s.events.value))
  }

  predicate TableOk(t: Table) { (forall s <- t.states :: StateOk(s)) && StateSeparator(t.after) }

  // ---- what the table says ----

  function TargetMeans(t: Target, from: string, event: string): Transition {
    Transition(from, event, "State_" + t.to, if t.own.Some? then Some(Simplify(t.own.value)) else None)
  }

  /** What the parsers report: the first `If` for the guard, whoever's it is. */
  function TargetSeen(t: Target, from: string, event: string): Transition {
    Transition(from, event, "State_" + t.to, if t.cond.Some? then Some(Simplify(t.cond.value.text)) else None)
  }

  function TargetsMean(ts: seq<Target>, from: string, event: string): (r: seq<Transition>)
    ensures |r| == |ts|
  {
    if ts == [] then [] else [TargetMeans(ts[0], from, event)] + TargetsMean(ts[1..], from, event)
  }

  function TargetsSeen(ts: seq<Target>, from: string, event: string): (r: seq<Transition>)
    ensures |r| == |ts|
  {
    if ts == [] then [] else [TargetSeen(ts[0], from, event)] + TargetsSeen(ts[1..], from, event)
  }

  /** The transitions of all handlers of an event. */
  function HandlersMean(hs: seq<Handler>, from: string, event: string): (r: seq<Transition>) {
    if hs == [] then []
    else
      (if hs[0].listing.Some? then TargetsMean(hs[0].listing.value.targets, from, event) else [])
      + HandlersMean(hs[1..], from, event)
  }

  /** What the parsers see of an event's handlers: the first list of transitions. */
  function FirstSeen(hs: seq<Handler>, from: string, event: string): (r: seq<Transition>) {
    if hs == [] then []
    else if hs[0].listing.Some? then TargetsSeen(hs[0].listing.value.targets, from, event)
    else FirstSeen(hs[1..], from, event)
  }

  /** The transitions of an event: all that its handlers stand for, or what the parsers see of them. */
  function EventMean(e: EventEntry, from: string, all: bool): (r: seq<Transition>) {
    var name := "Event_" + e.name;
    if all then HandlersMean(e.handlers, from, name)
    else if e.Inline? then FirstSeen(e.handlers, from, name)
    else []
  }

  function EventsMean(es: seq<EventEntry>, from: string, all: bool): (r: seq<Transition>) {
    if es == [] then [] else EventMean(es[0], from, all) + EventsMean(es[1..], from, all)
  }

  /** The transitions of the states in order: of every handler, or of the first with a list. */
  function StatesMean(ss: seq<StateEntry>, all: bool): (r: seq<Transition>) {
    if ss == [] then []
    else
      (if ss[0].events.Some? then EventsMean(ss[0].events.value.events, "State_" + ss[0].name, all) else [])
      + StatesMean(ss[1..], all)
  }

  // ---- one transition ----

  lemma StateWord(to: string)
    requires Word(to)
    ensures Value("State_" + to) && AllWord("State_" + to) && IsStateName("State_" + to) &&
      Strip("State_" + to) == "State_" + to
    ensures NoBrace("State_" + to) && ':' !in "State_" + to
  {
    var w := "State_" + to;
    assert AllWord("State_");
    assert AllWord(w);
    WordIsArgument(w);
    assert w[0] in w && w[|w| - 1] in w && w[6] == to[0] && to[0] in to;
    assert w[..6] == "State_";
    assert forall c <- w :: IsWord(c);
    ArgumentScanned(w, 0);
    StripTrimmed(w);
  }

  lemma Brackets(field: string)
    requires Searchable(field)
    ensures Silent("{", field) && Silent("}", field) && Balanced("", 0)
  {
    SilentWithout("{", field);
    SilentWithout("}", field);
  }

  lemma FieldNames()
    ensures Searchable("To") && Searchable("If") && Searchable("Transitions") && Searchable("Events")
  {
  }

  /** The first field of a block. */
  lemma FirstField(lead: string, f: string, gap: string, v: string, rest: string)
    requires Searchable(f) && Silent(lead, f) && AllSpace(gap) && Value(v) && Follower(rest)
    ensures FieldValue(Braced(lead + (f + ":" + (gap + v) + rest)), f) == Some(v)
  {
    hide FieldValue, Silent, Value, AllSpace, Searchable;
    Brackets(f);
    SilentAppend("{", lead, f);
    ValueFound("{" + lead, f, gap, v, rest + "}");
    FieldParts(lead, f + ":", gap, v, rest);
  }

  lemma FieldParts(lead: string, f: string, gap: string, v: string, rest: string)
    ensures Braced(lead + (f + (gap + v) + rest)) == "{" + lead + (f + (gap + (v + (rest + "}"))))
  {
  }

  /** A field after another one. */
  lemma SecondField(lead: string, first: string, mid: string, f: string, gap: string, v: string, rest: string)
    requires Searchable(f) && Silent(lead, f) && mid != "" && Follower(mid) && Silent(first + [mid[0]], f) &&
      Silent(mid, f)
    requires AllSpace(gap) && Value(v) && Follower(rest)
    ensures FieldValue(Braced(lead + (first + (mid + (f + ":" + (gap + v) + rest)))), f) == Some(v)
  {
    hide FieldValue, Silent, Value, AllSpace, Searchable;
    SilentTail(mid, f);
    SilentAppend(first + [mid[0]], mid[1..], f);
    SilentAppend(lead, first + [mid[0]] + mid[1..], f);
    assert mid == [mid[0]] + mid[1..];
    assert first + [mid[0]] + mid[1..] == first + mid;
    FirstField(lead + (first + mid), f, gap, v, rest);
    assert lead + (first + (mid + (f + ":" + (gap + v) + rest))) == lead + (first + mid) + (f + ":" + (gap + v) + rest);
  }

  /** The target field and the character after it hold no "If:". */
  lemma NoIfInTo(gap: string, w: string, end: char)
    requires AllSpace(gap) && ':' !in w && (end == ',' || end == '}')
    ensures Silent("To:" + (gap + w) + [end], "If")
  {
    var s := "To:" + (gap + w) + [end];
    assert ':' !in gap + w + [end];
    assert forall i :: 3 <= i < |s| ==> s[i] == (gap + w + [end])[i - 3];
    forall i | 0 <= i < |s| ensures !FieldAt(s, i, "If") {
      StartsAt(s[i..], "If:", 0);
      StartsAt(s[i..], "If:", 2);
      assert s[0] == 'T' && "If" + ":" == "If:";
    }
  }

  /** Without a guard no "If:" is found. */
  lemma IfMissing(lead: string, gap: string, w: string, trail: string)
    requires Silent(lead, "If") && AllSpace(gap) && ':' !in w && Silent(trail, "If") && Follower(trail)
    ensures FieldValue(Braced(lead + ("To:" + (gap + w) + trail)), "If") == None
  {
    hide Silent, AllSpace, Searchable;
    FieldNames();
    Brackets("If");
    var t := "To:" + (gap + w);
    SilentAppend("{", lead, "If");
    if trail == "" {
      NoIfInTo(gap, w, '}');
      SilentAppend("{" + lead, t + ['}'], "If");
      assert Braced(lead + (t + trail)) == "{" + lead + (t + ['}']);
    } else {
      var e := trail[0];
      NoIfInTo(gap, w, e);
      SilentTail(trail, "If");
      SilentAppend(t + [e], trail[1..], "If");
      SilentAppend("{" + lead, t + [e] + trail[1..], "If");
      SilentAppend("{" + lead + (t + [e] + trail[1..]), "}", "If");
      assert trail == [e] + trail[1..];
      assert Braced(lead + (t + trail)) == "{" + lead + (t + [e] + trail[1..]) + "}";
    }
    FieldMissing(Braced(lead + (t + trail)), "If", 0);
  }

  lemma ToRead(t: Target)
    requires TargetOk(t)
    ensures FieldValue(Braced(TargetBody(t)), "To") == Some("State_" + t.to)
  {
    hide FieldValue, Silent, Value, AllSpace, Searchable, Word, Balanced, Braced;
    FieldNames();
    StateWord(t.to);
    assert "To" + ":" == "To:";
    var w := "State_" + t.to;
    if t.cond.None? {
      FirstField(t.lead, "To", t.toGap, w, t.trail);
    } else if t.ifFirst {
      SecondField(t.lead, IfField(t.cond.value), t.mid, "To", t.toGap, w, t.trail);
    } else {
      FirstField(t.lead, "To", t.toGap, w, t.mid + (IfField(t.cond.value) + t.trail));
    }
  }

  lemma IfRead(t: Target)
    requires TargetOk(t)
    ensures FieldValue(Braced(TargetBody(t)), "If") == (if t.cond.Some? then Some(t.cond.value.text) else None)
  {
    hide FieldValue, Silent, Value, AllSpace, Searchable, Word, Balanced, Braced;
    FieldNames();
    StateWord(t.to);
    assert "If" + ":" == "If:";
    var w := "State_" + t.to;
    if t.cond.None? {
      IfMissing(t.lead, t.toGap, w, t.trail);
    } else if t.ifFirst {
      FirstField(t.lead, "If", t.cond.value.gap, t.cond.value.text, t.mid + (ToField(t) + t.trail));
    } else {
      NoIfInTo(t.toGap, w, t.mid[0]);
      SecondField(t.lead, ToField(t), t.mid, "If", t.cond.value.gap, t.cond.value.text, t.trail);
    }
  }

  /** A printed transition is read with its target and the first `If` of its text, rewritten. */
  lemma TargetRead(t: Target, from: string, event: string)
    requires TargetOk(t)
    ensures TransitionOf(Braced(TargetBody(t)), from, event) == [TargetSeen(t, from, event)]
    ensures !t.nested ==> TargetSeen(t, from, event) == TargetMeans(t, from, event)
  {
    hide FieldValue, TargetBody, Simplify, Strip, IsStateName, Silent, Balanced, AllSpace, Scanned;
    ToRead(t);
    IfRead(t);
    StateWord(t.to);
  }

  /** A guard on one line is reported in infix form. */
  lemma OneLineGuard(t: Target, g: Guard, from: string, event: string)
    requires WellFormed(g) && t.cond.Some? && t.cond.value.text == GoText(g)
    ensures TargetSeen(t, from, event).guard == Some(Infix(g)) && Value(GoText(g)) && Balanced(GoText(g), 0)
  {
    hide Argument, Simplify, WellFormed, GoText, Infix, Balanced, Scanned;
    SimplifyRendersInfix(g);
    GoTextPrintable(g);
    BalancedPlain(GoText(g));
    ArgumentScanned(GoText(g), 0);
  }

  /** A guard over several lines is reported as it is written, line breaks and all. */
  lemma MultiLineGuard(t: Target, open: string, inner: string, from: string, event: string)
    requires open in {HELPER_NOT, NOT, PACKAGE + NOT, AND, PACKAGE + AND, OR, PACKAGE + OR} && '\n' in inner
    requires t.cond.Some? && t.cond.value.text == open + inner + ")"
    ensures TargetSeen(t, from, event).guard == Some(t.cond.value.text)
  {
    hide Simplify;
    MultiLineIsLeftAlone(open, inner);
  }

  lemma SpacesPlain(gap: string)
    requires AllSpace(gap)
    ensures NoBrace(gap) && Balanced(gap, 0)
  {
    BalancedPlain(gap);
  }

  lemma Append3(a: string, b: string, c: string)
    requires Balanced(a, 0) && Balanced(b, 0) && Balanced(c, 0)
    ensures Balanced(a + (b + c), 0)
  {
    BalancedAppend(b, c, 0);
    BalancedAppend(a, b + c, 0);
  }

  // ---- a list of transitions ----

  lemma OneStruct(body: string, rest: string, from: string, event: string)
    requires Balanced(body, 0)
    ensures ParseStructs(Braced(body) + rest, from, event)
         == TransitionOf(Braced(body), from, event) + ParseStructs(rest, from, event)
  {
    hide TransitionOf, Balanced;
    BlockOfBraced(body, rest);
  }

  lemma {:induction false} TargetsRead(ts: seq<Target>, after: string, from: string, event: string)
    requires (forall t <- ts :: TargetOk(t)) && NoBrace(after)
    ensures ParseStructs(TargetsText(ts) + after + "}", from, event) == TargetsSeen(ts, from, event)
    ensures Balanced(TargetsText(ts) + after, 0)
  {
    hide TargetOk, TargetBody, ParseStructs, TransitionOf, Balanced, NoBrace;
    if ts == [] {
      assert TargetsText(ts) + after == after;
      StructsSkip(after, "}", from, event);
      NoStructs(from, event);
      PlainBalanced(after);
    } else {
      var t := ts[0];
      var u := TargetsText(ts[1..]) + after;
      TargetsRead(ts[1..], after, from, event);
      var body := TargetBody(t);
      TargetPlain(t);
      assert TargetsText(ts) + after + "}" == t.before + (Braced(body) + (u + "}"));
      StructsSkip(t.before, Braced(body) + (u + "}"), from, event);
      OneStruct(body, u + "}", from, event);
      TargetRead(t, from, event);
      BalancedBraced(body);
      PlainBalanced(t.before);
      Append3(t.before, Braced(body), u);
      assert TargetsText(ts) + after == t.before + (Braced(body) + u);
    }
  }

  lemma TargetPlain(t: Target)
    requires TargetOk(t)
    ensures NoBrace(t.before) && Balanced(TargetBody(t), 0)
  {
  }

  lemma PlainBalanced(s: string)
    requires NoBrace(s)
    ensures Balanced(s, 0)
  {
    BalancedPlain(s);
  }

  lemma NoStructs(from: string, event: string)
    ensures ParseStructs("}", from, event) == []
  {
  }

  // ---- one event ----

  lemma ListingShape(l: Listing)
    requires ListingOk(l)
    ensures Balanced(TargetsText(l.targets) + l.after, 0) && Balanced(ListingText(l), 0)
  {
    hide Balanced, TargetOk, AllSpace, TargetsText, Opened;
    TargetsRead(l.targets, l.after, "", "");
    OpenedBalanced("Transitions", l.gap, "[]Transition", TargetsText(l.targets) + l.after, l.trail);
    assert "[]Transition" + "{" == "[]Transition{";
  }

  lemma OpenedBalanced(field: string, gap: string, opener: string, body: string, trail: string)
    requires NoBrace(field) && AllSpace(gap) && NoBrace(opener) && Balanced(body, 0) && Balanced(trail, 0)
    ensures Balanced(Opened(field, gap, opener + "{", body + "}" + trail), 0)
  {
    hide Balanced, AllSpace;
    BalancedBraced(body);
    SpacesPlain(gap);
    BalancedAppend(Braced(body), trail, 0);
    BalancedPlain(opener);
    BalancedPlain(field + ":");
    Append3(gap, opener, Braced(body) + trail);
    BalancedAppend(field + ":", gap + (opener + (Braced(body) + trail)), 0);
    assert gap + (opener + (Braced(body) + trail)) == gap + (opener + "{" + (body + "}" + trail));
  }

  lemma HandlerBalanced(h: Handler)
    requires HandlerOk(h)
    ensures Balanced(HandlerText(h), 0)
  {
    hide Balanced, Silent, ListingOk, ListingText;
    if h.listing.Some? {
      ListingShape(h.listing.value);
      BalancedAppend(h.noise, ListingText(h.listing.value), 0);
      BalancedBraced(h.noise + ListingText(h.listing.value));
      BalancedAppend(h.lead, Braced(h.noise + ListingText(h.listing.value)), 0);
    } else {
      assert h.noise + "" == h.noise;
      BalancedBraced(h.noise);
      BalancedAppend(h.lead, Braced(h.noise), 0);
    }
  }

  lemma {:induction false} HandlersBalanced(hs: seq<Handler>)
    requires forall h <- hs :: HandlerOk(h)
    ensures Balanced(HandlersText(hs), 0)
  {
    hide HandlerOk, HandlerText;
    if hs != [] {
      HandlerBalanced(hs[0]);
      HandlersBalanced(hs[1..]);
      BalancedAppend(HandlerText(hs[0]), HandlersText(hs[1..]), 0);
    }
  }

  lemma EventBalanced(e: EventEntry)
    requires EventOk(e) && e.Inline?
    ensures Balanced(EventBody(e), 0)
  {
    hide Balanced, Silent, Word, AllSpace, EventSeparator, HandlerOk, HandlersText;
    HandlersBalanced(e.handlers);
    var t := Braced(HandlersText(e.handlers));
    BalancedBraced(HandlersText(e.handlers));
    BalancedPlain("Handlers: []EventHandler");
    BalancedAppend(e.head, "Handlers: []EventHandler", 0);
    BalancedAppend(e.head + "Handlers: []EventHandler", t, 0);
    BalancedAppend(e.head + "Handlers: []EventHandler" + t, e.tail, 0);
  }

  /** The search for a listing passes over the handlers without one and stops at the first with one. */
  lemma {:induction false} HandlersSearch(pre: string, hs: seq<Handler>, post: string, from: string, event: string)
    requires Silent(pre, "Transitions") && Silent(post, "Transitions") && forall h <- hs :: HandlerOk(h)
    ensures EventTransitions(pre + (HandlersText(hs) + post), from, event) == FirstSeen(hs, from, event)
    decreases |hs|
  {
    hide Silent, EventTransitions, HandlerText, TargetsSeen, HandlerOk, Searchable;
    FieldNames();
    if hs == [] {
      assert HandlersText(hs) + post == post;
      SilentAppend(pre, post, "Transitions");
      NothingListed(pre + post, from, event);
    } else if hs[0].listing.Some? {
      ListingFound(pre, hs[0], HandlersText(hs[1..]) + post, from, event);
      assert HandlersText(hs) + post == HandlerText(hs[0]) + (HandlersText(hs[1..]) + post);
    } else {
      HandlerSilent(hs[0]);
      SilentAppend(pre, HandlerText(hs[0]), "Transitions");
      HandlersSearch(pre + HandlerText(hs[0]), hs[1..], post, from, event);
      assert pre + (HandlersText(hs) + post) == pre + HandlerText(hs[0]) + (HandlersText(hs[1..]) + post);
    }
  }

  lemma NothingListed(s: string, from: string, event: string)
    requires Silent(s, "Transitions")
    ensures EventTransitions(s, from, event) == []
  {
    hide Silent, FindOpener, Openers;
    FieldNames();
    OpenersOk();
    OpenerMissing(s, "Transitions", TRANSITION_OPENERS, 0);
  }

  lemma HandlerSilent(h: Handler)
    requires HandlerOk(h) && h.listing.None?
    ensures Silent(HandlerText(h), "Transitions")
  {
    hide Silent, Balanced, Searchable;
    FieldNames();
    Brackets("Transitions");
    SilentAppend(h.lead, "{", "Transitions");
    SilentAppend(h.lead + "{", h.noise, "Transitions");
    SilentAppend(h.lead + "{" + h.noise, "}", "Transitions");
    assert HandlerText(h) == h.lead + "{" + h.noise + "}";
  }

  lemma ListingFound(pre: string, h: Handler, post: string, from: string, event: string)
    requires Silent(pre, "Transitions") && HandlerOk(h) && h.listing.Some?
    ensures EventTransitions(pre + (HandlerText(h) + post), from, event)
         == TargetsSeen(h.listing.value.targets, from, event)
  {
    hide Silent, Balanced, Searchable, TargetsSeen, TargetsText, EventTransitions, ParseStructs, TargetOk, Opened,
         HandlerText, ListingText;
    FieldNames();
    Brackets("Transitions");
    var l := h.listing.value;
    SilentAppend(pre, h.lead, "Transitions");
    SilentAppend(pre + h.lead, "{", "Transitions");
    SilentAppend(pre + h.lead + "{", h.noise, "Transitions");
    TargetsRead(l.targets, l.after, from, event);
    var body := TargetsText(l.targets) + l.after;
    ListingBlock(pre + h.lead + "{" + h.noise, l.gap, body, l.trail + ("}" + post), from, event);
    HandlerShape(pre, h, post);
  }

  lemma ListingBlock(pre: string, gap: string, body: string, rest: string, from: string, event: string)
    requires Silent(pre, "Transitions") && AllSpace(gap) && Balanced(body, 0)
    ensures EventTransitions(pre + Opened("Transitions", gap, "[]Transition{", body + "}" + rest), from, event)
         == ParseStructs(body + "}", from, event)
  {
    hide Silent, Balanced, Searchable, FindOpener, ParseStructs, Block, Opened, Openers, AllSpace;
    FieldNames();
    OpenersOk();
    OpenerBlock(pre, "Transitions", gap, TRANSITION_OPENERS, "[]Transition{", body, rest);
  }

  lemma OpenersOk()
    ensures Openers(TRANSITION_OPENERS) && OpensWith(TRANSITION_OPENERS, "[]Transition{")
  {
    forall tail: string ensures Opening1("[]Transition{" + tail, TRANSITION_OPENERS) == Some("[]Transition{") {
      StartsWithSelf("[]Transition{", tail);
    }
  }

  lemma MapOpenersOk(plural: bool)
    ensures Openers(EVENT_OPENERS) && OpensWith(EVENT_OPENERS, MapOpener(plural))
  {
    var o := MapOpener(plural);
    MapOpeners();
    forall tail: string ensures Opening1(o + tail, EVENT_OPENERS) == Some(o) { MapOpens(plural, tail); }
  }

  lemma MapOpeners()
    ensures Openers(EVENT_OPENERS) && forall o <- EVENT_OPENERS :: o != [] && !IsSpace(o[0])
  {
  }

  /** The singular opening is not taken for the plural one. */
  lemma MapOpens(plural: bool, tail: string)
    ensures Opening1(MapOpener(plural) + tail, EVENT_OPENERS) == Some(MapOpener(plural))
  {
    var o := MapOpener(plural);
    StartsWithSelf(o, tail);
    if !plural {
      StartsAt(o + tail, EVENT_OPENERS[0], 26);
      assert (o + tail)[26] == o[26];
      assert EVENT_OPENERS[1..][0] == o;
    }
  }

  lemma HandlerShape(pre: string, h: Handler, post: string)
    requires h.listing.Some?
    ensures var l := h.listing.value;
      pre + (HandlerText(h) + post) ==
      pre + h.lead + "{" + h.noise
      + Opened("Transitions", l.gap, "[]Transition{", TargetsText(l.targets) + l.after + "}" + (l.trail + ("}" + post)))
  {
    hide TargetsText, Opened;
    var l := h.listing.value;
    OpenedTail("Transitions", l.gap, "[]Transition{", TargetsText(l.targets) + l.after, l.trail, "}" + post);
    BracedTail(pre, h.lead, h.noise, ListingText(l), post);
  }

  lemma BracedTail(pre: string, lead: string, a: string, b: string, post: string)
    ensures pre + (lead + Braced(a + b) + post) == pre + lead + "{" + a + (b + ("}" + post))
  {
  }

  lemma OpenedTail(field: string, gap: string, opener: string, body: string, trail: string, rest: string)
    ensures Opened(field, gap, opener, body + "}" + trail) + rest == Opened(field, gap, opener,
      body + "}" + (trail + rest))
  {
    assert opener + (body + "}" + trail) + rest == opener + (body + "}" + (trail + rest));
    assert field + ":" + (gap + (opener + (body + "}" + trail))) + rest
        == field + ":" + (gap + (opener + (body + "}" + trail) + rest));
  }

  /** The block of an event is read as the transitions of its first handler that lists any. */
  lemma EventRead(e: EventEntry, from: string, event: string)
    requires EventOk(e) && e.Inline?
    ensures EventTransitions(Braced(EventBody(e)), from, event) == FirstSeen(e.handlers, from, event)
  {
    hide Silent, Balanced, Searchable, EventTransitions, HandlersText, FirstSeen, HandlerOk, EventSeparator, Word;
    FieldNames();
    Brackets("Transitions");
    var h := "Handlers: []EventHandler{";
    HandlersSilent();
    SilentAppend("{", e.head, "Transitions");
    SilentAppend("{" + e.head, h, "Transitions");
    SilentAppend("}", e.tail, "Transitions");
    SilentAppend("}" + e.tail, "}", "Transitions");
    HandlersSearch("{" + e.head + h, e.handlers, "}" + e.tail + "}", from, event);
    assert Braced(EventBody(e)) == "{" + e.head + h + (HandlersText(e.handlers) + ("}" + e.tail + "}"));
  }

  lemma HandlersSilent()
    ensures Silent("Handlers: []EventHandler{", "Transitions")
  {
    FieldNames();
    SilentWithout("Handlers: []EventHandler{", "Transitions");
  }

  // ---- the events of a state ----

  function EventKey(e: EventEntry): string { (if e.common then COMMON else "") + ("Event_" + e.name + ":") }

  lemma EventKeyFound(e: EventEntry, value: string)
    requires EventOk(e) && value != [] && !IsSpace(value[0])
    ensures var s := EventKey(e) + (e.gap + value);
      var k := MatchEventKey(s);
      s != [] && s[0] != '}' && s[0] != ':' && !IsSpace(s[0]) && k.Some? && k.value.name == "Event_" + e.name &&
      LStrip(s[k.value.length..]) == value
  {
    hide EventSeparator, Word, AllSpace, HandlerOk, MatchKey, LStrip, Noise, NamedValue;
    var t := e.gap + value;
    EventPrefix();
    KeyFound("Event_", e.name, e.gap, value);
    var w := "Event_" + e.name + ":" + t;
    EventKeyOf(e, "Event_" + e.name, t);
    if e.common {
      StartsWithSelf(COMMON, w);
      AfterCommon(COMMON, w, |"Event_" + e.name| + 1);
    } else {
      StartsAt(w, COMMON, 0);
    }
  }

  lemma AfterCommon(a: string, w: string, n: nat)
    requires n <= |w|
    ensures (a + w)[|a| + n..] == w[n..]
  {
  }

  lemma EventKeyOf(e: EventEntry, key: string, t: string)
    requires key == "Event_" + e.name
    ensures EventKey(e) + t == (if e.common then COMMON + (key + ":" + t) else key + ":" + t)
  {
  }

  lemma EventPrefix()
    ensures AllWord("Event_") && AllWord("State_")
  {
  }

  /** An event with a block contributes its transitions, one bound to a variable nothing. */
  lemma OneEvent(e: EventEntry, rest: string, from: string)
    requires EventOk(e)
    ensures ParseEvents(EventText(e) + rest, from) == EventMean(e, from, false) + ParseEvents(rest, from)
    ensures Balanced(EventText(e), 0)
  {
    hide HandlerOk, Balanced, MatchEventKey, EventBody, EventTransitions, FirstSeen, Block, EventKey, EventSeparator,
         Noise, LStrip;
    ValueStarts(e);
    var value := EventValue(e) + rest;
    EventKeyFound(e, value);
    var s := EventKey(e) + (e.gap + value);
    EventShape(e, rest);
    EventsSkip(e.lead, s, from);
    NoStrip(s);
    if e.Inline? {
      EventBalanced(e);
      EventRead(e, from, "Event_" + e.name);
      BlockOfBraced(EventBody(e), rest);
    } else {
      NamedStarts(e.value);
      EventsSkip(e.value, rest, from);
    }
    EventTextBalanced(e);
  }

  lemma ValueStarts(e: EventEntry)
    requires EventOk(e)
    ensures EventValue(e) != [] && !IsSpace(EventValue(e)[0]) && (e.Inline? ==> EventValue(e)[0] == '{')
  {
  }

  lemma NamedStarts(v: string)
    requires NamedValue(v)
    ensures v[0] != '{'
  {
    assert v[0] in v;
  }

  lemma EventShape(e: EventEntry, rest: string)
    ensures EventText(e) + rest == e.lead + (EventKey(e) + (e.gap + (EventValue(e) + rest)))
  {
    hide EventValue;
    var b := EventValue(e);
    var k := "Event_" + e.name + ":";
    var c := if e.common then COMMON else "";
    assert c + (k + (e.gap + b)) + rest == c + k + (e.gap + (b + rest));
  }

  lemma EventTextBalanced(e: EventEntry)
    requires EventOk(e)
    ensures Balanced(EventText(e), 0)
  {
    hide HandlerOk, Balanced, EventBody, Noise, Braced, MatchEventKey;
    if e.Inline? {
      EventBalanced(e);
      BalancedBraced(EventBody(e));
    } else {
      BalancedPlain(e.value);
    }
    SpacesPlain(e.gap);
    BalancedPlain(e.lead);
    EventPrefix();
    WordsPlain("Event_", e.name);
    BalancedPlain(COMMON);
    BalancedPlain("");
    var c := if e.common then COMMON else "";
    Append3("Event_" + e.name + ":", e.gap, EventValue(e));
    Append3(e.lead, c, "Event_" + e.name + ":" + (e.gap + EventValue(e)));
  }

  lemma WordsPlain(prefix: string, name: string)
    requires AllWord(prefix) && Word(name)
    ensures Balanced(prefix + name + ":", 0)
  {
    BalancedPlain(prefix + name + ":");
  }

  lemma {:induction false} EventsRead(es: seq<EventEntry>, after: string, from: string)
    requires (forall e <- es :: EventOk(e)) && EventSeparator(after)
    ensures ParseEvents(EventsText(es) + after + "}", from) == EventsMean(es, from, false)
    ensures Balanced(EventsText(es) + after, 0)
  {
    hide EventOk, EventText, ParseEvents, Balanced, EventSeparator, EventMean;
    if es == [] {
      assert EventsText(es) + after == after;
      EndOfEvents(after, from);
    } else {
      var u := EventsText(es[1..]) + after;
      EventsRead(es[1..], after, from);
      OneEvent(es[0], u + "}", from);
      assert EventsText(es) + after + "}" == EventText(es[0]) + (u + "}");
      BalancedAppend(EventText(es[0]), u, 0);
      assert EventsText(es) + after == EventText(es[0]) + u;
    }
  }

  lemma EndOfEvents(after: string, from: string)
    requires EventSeparator(after)
    ensures ParseEvents(after + "}", from) == [] && Balanced(after, 0)
  {
    hide MatchEventKey;
    EventsSkip(after, "}", from);
    BalancedPlain(after);
  }

  lemma EndOfStates(after: string)
    requires StateSeparator(after)
    ensures ParseStates(after + "}") == [] && Balanced(after, 0)
  {
    hide MatchKey;
    StatesSkip(after, "}");
    BalancedPlain(after);
  }

  // ---- the states of a table ----

  lemma EventMapBalanced(m: EventMap)
    requires EventMapOk(m)
    ensures Balanced(EventsText(m.events) + m.after, 0) && Balanced(EventMapText(m), 0)
  {
    hide Balanced, EventOk, AllSpace, EventsText, EventSeparator, Opened, NoBrace, MapOpener;
    EventsRead(m.events, m.after, "");
    MapBalanced(m.gap, m.plural, EventsText(m.events) + m.after, m.trail);
  }

  lemma MapBalanced(gap: string, plural: bool, body: string, trail: string)
    requires AllSpace(gap) && Balanced(body, 0) && Balanced(trail, 0)
    ensures Balanced(Opened("Events", gap, MapOpener(plural), body + "}" + trail), 0)
  {
    hide Balanced, AllSpace, Opened;
    var opener := if plural then "map[EventType]EventHandlers" else "map[EventType]EventHandler";
    OpenedBalanced("Events", gap, opener, body, trail);
    assert opener + "{" == MapOpener(plural);
  }

  lemma StateBalanced(s: StateEntry)
    requires StateOk(s)
    ensures Balanced(StateBody(s), 0)
  {
    hide Balanced, EventMapOk, EventMapText, Silent, Word, AllSpace, StateSeparator;
    if s.events.Some? {
      EventMapBalanced(s.events.value);
      BalancedAppend(s.noise, EventMapText(s.events.value), 0);
    } else {
      assert s.noise + "" == s.noise;
    }
  }

  lemma EventsBlock(pre: string, gap: string, plural: bool, body: string, rest: string, state: string)
    requires Silent(pre, "Events") && AllSpace(gap) && Balanced(body, 0)
    ensures StateTransitions(pre + Opened("Events", gap, MapOpener(plural), body + "}" + rest), state)
         == ParseEvents(body + "}", state)
  {
    hide Silent, Balanced, Searchable, FindOpener, ParseEvents, Block, Opened, Openers, OpensWith, AllSpace, MapOpener;
    FieldNames();
    MapOpenersOk(plural);
    OpenerBlock(pre, "Events", gap, EVENT_OPENERS, MapOpener(plural), body, rest);
  }

  lemma NoEventMap(s: string, state: string)
    requires Silent(s, "Events")
    ensures StateTransitions(s, state) == []
  {
    hide Silent, FindOpener, Openers;
    FieldNames();
    MapOpeners();
    OpenerMissing(s, "Events", EVENT_OPENERS, 0);
  }

  lemma StateRead(s: StateEntry, state: string)
    requires StateOk(s)
    ensures StateTransitions(Braced(StateBody(s)), state)
         == (if s.events.Some? then EventsMean(s.events.value.events, state, false) else [])
  {
    hide Silent, Balanced, Searchable, StateTransitions, EventsMean, EventOk, Opened, ParseEvents, EventsText, Word,
         EventSeparator, StateSeparator, MapOpener;
    FieldNames();
    Brackets("Events");
    SilentAppend("{", s.noise, "Events");
    if s.events.Some? {
      var m := s.events.value;
      EventsRead(m.events, m.after, state);
      var body := EventsText(m.events) + m.after;
      EventsBlock("{" + s.noise, m.gap, m.plural, body, m.trail + "}", state);
      OpenedTail("Events", m.gap, MapOpener(m.plural), body, m.trail, "}");
      BracedTail("", "", s.noise, EventMapText(m), "");
      assert "" + ("" + Braced(StateBody(s)) + "") == Braced(StateBody(s));
      assert "" + "" + "{" + s.noise == "{" + s.noise && "}" + "" == "}";
    } else {
      SilentAppend("{" + s.noise, "}", "Events");
      assert Braced(StateBody(s)) == "{" + s.noise + "}";
      NoEventMap(Braced(StateBody(s)), state);
    }
  }

  lemma StateShape(s: StateEntry, rest: string)
    ensures StateText(s) + rest == s.lead + ("State_" + s.name + ":" + (s.gap + (Braced(StateBody(s)) + rest)))
  {
    hide StateBody, Braced;
    var b := Braced(StateBody(s));
    var k := "State_" + s.name + ":";
    assert k + (s.gap + b) + rest == k + (s.gap + (b + rest));
  }

  lemma StateTextBalanced(s: StateEntry)
    requires StateOk(s)
    ensures Balanced(StateText(s), 0)
  {
    hide Balanced, StateBody, Noise, Braced, EventMapOk, MatchKey;
    StateBalanced(s);
    BalancedBraced(StateBody(s));
    SpacesPlain(s.gap);
    BalancedPlain(s.lead);
    EventPrefix();
    WordsPlain("State_", s.name);
    Append3("State_" + s.name + ":", s.gap, Braced(StateBody(s)));
    BalancedAppend(s.lead, "State_" + s.name + ":" + (s.gap + Braced(StateBody(s))), 0);
  }

  lemma OneState(s: StateEntry, rest: string)
    requires StateOk(s)
    ensures ParseStates(StateText(s) + rest)
         == (if s.events.Some? then EventsMean(s.events.value.events, "State_" + s.name, false) else [])
            + ParseStates(rest)
    ensures Balanced(StateText(s), 0)
  {
    hide Balanced, MatchKey, StateBody, StateTransitions, EventsMean, Block, StateSeparator, Noise, EventMapOk, Word,
         AllSpace, LStrip;
    StateBalanced(s);
    StateRead(s, "State_" + s.name);
    EventPrefix();
    KeyFound("State_", s.name, s.gap, Braced(StateBody(s)) + rest);
    var t := "State_" + s.name + ":" + (s.gap + (Braced(StateBody(s)) + rest));
    StateShape(s, rest);
    StatesSkip(s.lead, t);
    NoStrip(t);
    BlockOfBraced(StateBody(s), rest);
    StateTextBalanced(s);
  }

  lemma {:induction false} StatesRead(ss: seq<StateEntry>, after: string)
    requires (forall s <- ss :: StateOk(s)) && StateSeparator(after)
    ensures ParseStates(StatesText(ss) + after + "}") == StatesMean(ss, false)
    ensures Balanced(StatesText(ss) + after, 0)
  {
    hide StateOk, StateText, ParseStates, Balanced, StateSeparator, EventsMean;
    if ss == [] {
      assert StatesText(ss) + after == after;
      EndOfStates(after);
    } else {
      var u := StatesText(ss[1..]) + after;
      StatesRead(ss[1..], after);
      OneState(ss[0], u + "}");
      assert StatesText(ss) + after + "}" == StateText(ss[0]) + (u + "}");
      BalancedAppend(StateText(ss[0]), u, 0);
      assert StatesText(ss) + after == StateText(ss[0]) + u;
    }
  }

  // ---- the whole file ----

  /** The declaration does not occur before the end of `pre`. */
  ghost predicate Unmarked(pre: string) { Find(pre + MARKER, MARKER, 0) == Some(|pre|) }

  lemma MarkerFound(pre: string, tail: string)
    requires Unmarked(pre)
    ensures Find(pre + (MARKER + tail), MARKER, 0) == Some(|pre|)
  {
    FoundAfter(pre, MARKER, tail);
  }

  lemma FoundAfter(pre: string, m: string, tail: string)
    requires Find(pre + m, m, 0) == Some(|pre|)
    ensures Find(pre + (m + tail), m, 0) == Some(|pre|)
  {
    hide StartsWith;
    var s := pre + (m + tail);
    assert s[|pre|..] == m + tail;
    StartsWithSelf(m, tail);
    forall j | 0 <= j < |pre| ensures !StartsWith(s[j..], m) {
      NotEarlier(pre, m, tail, j);
    }
  }

  lemma NotEarlier(pre: string, m: string, tail: string, j: nat)
    requires j < |pre| && !StartsWith((pre + m)[j..], m)
    ensures !StartsWith((pre + (m + tail))[j..], m)
  {
    assert (pre + (m + tail))[j..] == (pre + m)[j..] + tail;
    assert |m| <= |(pre + m)[j..]|;
  }

  /**
   A file that declares the table, with any text before and after, is read as the table's
   transitions: states, events and targets in order and guards rewritten; of each event with a block,
   those of the first handler that lists transitions, and of an event bound to a variable none.
   */
  lemma TableReadsBack(pre: string, t: Table, post: string)
    requires TableOk(t) && Unmarked(pre)
    ensures ParseMachine(pre + (DECLARATION + (Braced(TableBody(t)) + post))) == StatesMean(t.states, false)
  {
    hide StateOk, Balanced, ParseStates, Block, StatesText, StatesMean, Find, Unmarked;
    StatesRead(t.states, t.after);
    var tail := TableBody(t) + "}" + post;
    MarkerFound(pre, tail);
    MarkerShape(pre, TableBody(t), post);
    BlockOfBraced(TableBody(t), post);
    assert Braced(TableBody(t))[1..] == TableBody(t) + "}";
  }

  lemma MarkerShape(pre: string, body: string, post: string)
    ensures var s := pre + (MARKER + (body + "}" + post));
      s == pre + (DECLARATION + (Braced(body) + post)) &&
      s[|pre| + |MARKER| - 1..] == Braced(body) + post
  {
    assert MARKER == DECLARATION + "{";
    MarkerSplit(pre, DECLARATION, body, post);
  }

  lemma MarkerSplit(pre: string, d: string, body: string, post: string)
    ensures var s := pre + (d + "{" + (body + "}" + post));
      s == pre + (d + (Braced(body) + post)) && s[|pre| + |d|..] == Braced(body) + post
  {
  }
}
