/**
 * Attribute fragments for the htmx hypermedia library (src/htmx.rs):
 * `hx-get`/`hx-post`, `hx-target` and `hx-trigger`, plus the keyword
 * renderings of trigger events, event modifiers, queue options, scroll
 * directions, swap modifiers and swap targets.
 *
 * Every `Display` impl is a function from the value to the text it writes;
 * the two impls that loop (the modifiers of a trigger, the comma-joined
 * triggers of an `Hx`) are also written as methods that accumulate the text
 * step by step and are proved to produce exactly that function's value.
 */
module Htmx {
  import O = Options
  import opened Strings

  /** `std::time::Duration`, represented by the text its `Debug` impl writes. */
  datatype Duration = Duration(debugText: string)

  /** `{timing:?}`: the `Debug` rendering of a duration. */
  function DurationText(d: Duration): string
  {
    d.debugText
  }

  /** `Display for bool`. */
  function BoolText(b: bool): string
  {
    if b then "true" else "false"
  }

  // ---------------------------------------------------------------------------
  // Keyword tables

  datatype ScrollDirection = Top | Bottom

  function ScrollText(d: ScrollDirection): string
  {
    match d
    case Top => "top"
    case Bottom => "bottom"
  }

  datatype QueueOption = First | Last | All | None

  function QueueText(q: QueueOption): string
  {
    match q
    case First => "first"
    case Last => "last"
    case All => "all"
    case None => "none"
  }

  datatype TriggerEvent = Load | Click | MouseEnter | KeyUp | Revealed | Every(timing: Duration)

  /** The event name; `Revealed` is spelt `revelead`, as the source writes it. */
  function EventText(e: TriggerEvent): string
  {
    match e
    case Load => "load"
    case Click => "click"
    case MouseEnter => "mouseenter"
    case KeyUp => "keyup"
    case Revealed => "revelead"
    case Every(timing) => "every " + DurationText(timing)
  }

  datatype EventModifier =
    | Once
    | Changed
    | Delay(delay: Duration)
    | Throttle(throttle: Duration)
    | From(source: string)
    | Target(selector: string)
    | Consume
    | Queue(option: QueueOption)

  function ModifierText(m: EventModifier): string
  {
    match m
    case Once => "once"
    case Changed => "changed"
    case Delay(t) => "delay:" + DurationText(t)
    case Throttle(t) => "throttle:" + DurationText(t)
    case From(s) => "from:" + s
    case Target(s) => "target:" + s
    case Consume => "consume"
    case Queue(q) => "queue:" + QueueText(q)
  }

  // ---------------------------------------------------------------------------
  // Triggers

  datatype Trigger = Trigger(event: TriggerEvent, conditional: O.Option<string>, modifiers: seq<EventModifier>)

  /** `From<TriggerEvent> for Trigger`. */
  function FromEvent(e: TriggerEvent): Trigger
  {
    Trigger(e, O.None, [])
  }

  /** `Trigger::with_conditional`: `Option::replace` on the conditional. */
  function WithConditional(t: Trigger, conditional: string): Trigger
  {
    t.(conditional := O.Some(conditional))
  }

  /** `Trigger::with_modifier`: pushes onto the modifier list. */
  function WithModifier(t: Trigger, m: EventModifier): Trigger
  {
    t.(modifiers := t.modifiers + [m])
  }

  /** `TriggerEvent::with_conditional`. */
  function EventWithConditional(e: TriggerEvent, conditional: string): Trigger
  {
    WithConditional(FromEvent(e), conditional)
  }

  /** `TriggerEvent::with_modifier`. */
  function EventWithModifier(e: TriggerEvent, m: EventModifier): Trigger
  {
    WithModifier(FromEvent(e), m)
  }

  /** What the `for modifier in &self.modifiers` loop writes: a space, then the modifier, for each one in order. */
  function ModifiersText(ms: seq<EventModifier>): string
  {
    if ms == [] then "" else ModifiersText(ms[..|ms| - 1]) + (" " + ModifierText(ms[|ms| - 1]))
  }

  function ConditionalText(c: O.Option<string>): string
  {
    match c
    case None => ""
    case Some(expression) => " [" + expression + "]"
  }

  /** `Display for Trigger`: the event, the modifiers, then the conditional. */
  function TriggerText(t: Trigger): string
  {
    EventText(t.event) + ModifiersText(t.modifiers) + ConditionalText(t.conditional)
  }

  /** `Display for Trigger`, written out as the source's loop over the modifiers. */
  method WriteTrigger(t: Trigger) returns (s: string)
    ensures s == TriggerText(t)
  {
    s := EventText(t.event);
    var i := 0;
    while i < |t.modifiers|
      invariant 0 <= i <= |t.modifiers|
      invariant s == EventText(t.event) + ModifiersText(t.modifiers[..i])
    {
      assert t.modifiers[..i + 1][..i] == t.modifiers[..i];
      ConcatAssoc(EventText(t.event), ModifiersText(t.modifiers[..i]), " " + ModifierText(t.modifiers[i]));
      s := s + (" " + ModifierText(t.modifiers[i]));
      i := i + 1;
    }
    assert t.modifiers[..i] == t.modifiers;
    if t.conditional.Some? {
      s := s + (" [" + t.conditional.value + "]");
    }
  }

  lemma {:induction false} ModifiersConcat(a: seq<EventModifier>, b: seq<EventModifier>)
    ensures ModifiersText(a + b) == ModifiersText(a) + ModifiersText(b)
    decreases |b|
  {
    if b == [] {
      assert a + b == a;
    } else {
      var b' := b[..|b| - 1];
      var x := " " + ModifierText(b[|b| - 1]);
      assert (a + b)[..|a + b| - 1] == a + b';
      assert (a + b)[|a + b| - 1] == b[|b| - 1];
      assert ModifiersText(a + b) == ModifiersText(a + b') + x;
      ModifiersConcat(a, b');
      ConcatAssoc(ModifiersText(a), ModifiersText(b'), x);
    }
  }

  /** A trigger built from an event alone renders as exactly that event. */
  lemma FromEventRendersEvent(e: TriggerEvent)
    ensures FromEvent(e).conditional == O.None && FromEvent(e).modifiers == []
    ensures TriggerText(FromEvent(e)) == EventText(e)
  {
  }

  /** `with_modifier` appends ` modifier` after the earlier modifiers and before the conditional. */
  lemma WithModifierRender(t: Trigger, m: EventModifier)
    ensures WithModifier(t, m).event == t.event && WithModifier(t, m).conditional == t.conditional
    ensures TriggerText(WithModifier(t, m))
         == EventText(t.event) + ModifiersText(t.modifiers) + " " + ModifierText(m) + ConditionalText(t.conditional)
  {
    assert (t.modifiers + [m])[..|t.modifiers|] == t.modifiers;
  }

  /** The event shortcuts start from the bare event: a conditional alone, or one modifier alone. */
  lemma EventShortcutsRender(e: TriggerEvent, c: string, m: EventModifier)
    ensures EventWithConditional(e, c) == Trigger(e, O.Some(c), [])
    ensures EventWithModifier(e, m) == Trigger(e, O.None, [m])
    ensures TriggerText(EventWithConditional(e, c)) == EventText(e) + " [" + c + "]"
    ensures TriggerText(EventWithModifier(e, m)) == EventText(e) + " " + ModifierText(m)
  {
    assert ([] + [m])[..0] == [];
  }

  /** `with_conditional` replaces the conditional and leaves the event and modifiers alone; the last call wins. */
  lemma WithConditionalLastWins(t: Trigger, a: string, b: string)
    ensures WithConditional(WithConditional(t, a), b) == WithConditional(t, b)
    ensures WithConditional(t, a).event == t.event && WithConditional(t, a).modifiers == t.modifiers
    ensures TriggerText(WithConditional(t, b)) == EventText(t.event) + ModifiersText(t.modifiers) + " [" + b + "]"
  {
  }

  /** The rendering of a trigger starts with its event and puts ` [cond]` last, only when a conditional is set. */
  lemma TriggerTextShape(t: Trigger)
    ensures |EventText(t.event)| <= |TriggerText(t)| && TriggerText(t)[..|EventText(t.event)|] == EventText(t.event)
    ensures t.conditional.None? ==> TriggerText(t) == EventText(t.event) + ModifiersText(t.modifiers)
    ensures t.conditional.Some? ==>
      var suffix := " [" + t.conditional.value + "]";
      |suffix| <= |TriggerText(t)| && TriggerText(t)[|TriggerText(t)| - |suffix|..] == suffix
  {
    var e := EventText(t.event);
    var rest := ModifiersText(t.modifiers) + ConditionalText(t.conditional);
    assert TriggerText(t) == e + rest;
    assert (e + rest)[..|e|] == e;
  }

  /** Each modifier adds one space and its own text, so `n` modifiers add at least `2n` characters. */
  lemma {:induction false} ModifiersTextLength(ms: seq<EventModifier>)
    ensures |ModifiersText(ms)| >= 2 * |ms|
    ensures ModifiersText(ms) == "" <==> ms == []
  {
    if ms != [] {
      ModifiersTextLength(ms[..|ms| - 1]);
      ModifierTextNonEmpty(ms[|ms| - 1]);
    }
  }

  lemma ModifierTextNonEmpty(m: EventModifier)
    ensures |ModifierText(m)| >= 1
  {
  }

  // ---------------------------------------------------------------------------
  // The hx-* request attributes

  datatype Request = Get(url: string) | Post(url: string)

  /** `Display for Request`. */
  function RequestText(r: Request): string
  {
    match r
    case Get(url) => "hx-get=\"" + url + "\""
    case Post(url) => "hx-post=\"" + url + "\""
  }

  datatype Hx = Hx(url: Request, target: O.Option<string>, triggers: seq<Trigger>)

  /** `Hx::get`. */
  function HxGet(path: string): Hx
  {
    Hx(Get(path), O.None, [])
  }

  /** `Hx::post`. */
  function HxPost(path: string): Hx
  {
    Hx(Post(path), O.None, [])
  }

  /** `Hx::with_target`: `Option::replace` on the target. */
  function WithTarget(h: Hx, target: string): Hx
  {
    h.(target := O.Some(target))
  }

  /** `Hx::with_trigger`: pushes onto the trigger list. */
  function WithTrigger(h: Hx, t: Trigger): Hx
  {
    h.(triggers := h.triggers + [t])
  }

  /** `Vec<String>::join(", ")`. */
  function Join(parts: seq<string>): string
  {
    if |parts| == 0 then ""
    else if |parts| == 1 then parts[0]
    else parts[0] + ", " + Join(parts[1..])
  }

  /** `.iter().map(ToString::to_string).collect()` over the triggers: their renderings, in order. */
  function TriggerTexts(ts: seq<Trigger>): seq<string>
  {
    if ts == [] then [] else TriggerTexts(ts[..|ts| - 1]) + [TriggerText(ts[|ts| - 1])]
  }

  function TargetAttr(target: O.Option<string>): string
  {
    match target
    case None => ""
    case Some(t) => " hx-target=\"" + t + "\""
  }

  function TriggerAttr(ts: seq<Trigger>): string
  {
    if |ts| == 0 then "" else " hx-trigger=\"" + Join(TriggerTexts(ts)) + "\""
  }

  /** `Display for Hx`: the request, the optional target, the optional comma-joined triggers. */
  function HxText(h: Hx): string
  {
    RequestText(h.url) + TargetAttr(h.target) + TriggerAttr(h.triggers)
  }

  /** The rendered triggers joined with `", "`, accumulated one trigger at a time. */
  method WriteTriggerList(ts: seq<Trigger>) returns (joined: string)
    requires |ts| > 0
    ensures joined == Join(TriggerTexts(ts))
  {
    joined := WriteTrigger(ts[0]);
    JoinFirst(ts);
    var i := 1;
    while i < |ts|
      invariant 1 <= i <= |ts|
      invariant joined == Join(TriggerTexts(ts[..i]))
    {
      var next := WriteTrigger(ts[i]);
      JoinStep(ts, i);
      joined := joined + ", " + next;
      i := i + 1;
    }
    assert ts[..i] == ts;
  }

  lemma JoinFirst(ts: seq<Trigger>)
    requires |ts| > 0
    ensures Join(TriggerTexts(ts[..1])) == TriggerText(ts[0])
  {
    assert ts[..1][..0] == [];
  }

  /** One more trigger adds `", "` and its rendering to the joined text. */
  lemma JoinStep(ts: seq<Trigger>, i: nat)
    requires 1 <= i < |ts|
    ensures Join(TriggerTexts(ts[..i + 1])) == Join(TriggerTexts(ts[..i])) + ", " + TriggerText(ts[i])
  {
    assert ts[..i + 1][..i] == ts[..i];
    JoinAppend(TriggerTexts(ts[..i]), TriggerText(ts[i]));
  }

  /** `Display for Hx`, written out step by step. */
  method WriteHx(h: Hx) returns (s: string)
    ensures s == HxText(h)
  {
    s := RequestText(h.url);
    if h.target.Some? {
      s := s + (" hx-target=\"" + h.target.value + "\"");
    }
    if |h.triggers| > 0 {
      var joined := WriteTriggerList(h.triggers);
      s := s + (" hx-trigger=\"" + joined + "\"");
    }
  }

  lemma TriggerTextsAppend(ts: seq<Trigger>, t: Trigger)
    ensures TriggerTexts(ts + [t]) == TriggerTexts(ts) + [TriggerText(t)]
  {
    assert (ts + [t])[..|ts|] == ts;
  }

  /** Joining one more part adds `", "` and that part at the end. */
  lemma {:induction false} JoinAppend(parts: seq<string>, x: string)
    requires |parts| > 0
    ensures Join(parts + [x]) == Join(parts) + ", " + x
  {
    if |parts| == 1 {
      assert parts + [x] == [parts[0], x];
      assert (parts + [x])[1..] == [x];
    } else {
      assert (parts + [x])[1..] == parts[1..] + [x];
      JoinAppend(parts[1..], x);
    }
  }

  /** A fresh `Hx` has no target and no triggers, so it renders as its request alone. */
  lemma FreshHxRendersRequestOnly(path: string)
    ensures HxGet(path).target == O.None && HxGet(path).triggers == []
    ensures HxPost(path).target == O.None && HxPost(path).triggers == []
    ensures HxText(HxGet(path)) == "hx-get=\"" + path + "\""
    ensures HxText(HxPost(path)) == "hx-post=\"" + path + "\""
  {
  }

  /** Every rendering starts with the request attribute. */
  lemma HxTextStartsWithRequest(h: Hx)
    ensures |RequestText(h.url)| <= |HxText(h)|
    ensures HxText(h)[..|RequestText(h.url)|] == RequestText(h.url)
  {
    var r := RequestText(h.url);
    var rest := TargetAttr(h.target) + TriggerAttr(h.triggers);
    assert HxText(h) == r + rest;
    assert (r + rest)[..|r|] == r;
  }

  /** The target fragment is present exactly when a target is set; `with_target` replaces it, so the last one wins. */
  lemma WithTargetLastWins(h: Hx, a: string, b: string)
    ensures WithTarget(WithTarget(h, a), b) == WithTarget(h, b)
    ensures WithTarget(h, a).url == h.url && WithTarget(h, a).triggers == h.triggers
    ensures HxText(WithTarget(h, b)) == RequestText(h.url) + (" hx-target=\"" + b + "\"") + TriggerAttr(h.triggers)
    ensures h.target.None? ==> HxText(h) == RequestText(h.url) + TriggerAttr(h.triggers)
  {
  }

  /** The trigger fragment is left out when there are no triggers, and lists every trigger otherwise. */
  lemma TriggerAttrShape(ts: seq<Trigger>)
    ensures TriggerAttr(ts) == "" <==> ts == []
    ensures |ts| == 1 ==> TriggerAttr(ts) == " hx-trigger=\"" + TriggerText(ts[0]) + "\""
  {
    if |ts| == 1 {
      assert ts[..0] == [];
      assert TriggerTexts(ts) == [TriggerText(ts[0])];
    }
  }

  /**
   * `with_trigger` keeps the url, the target and the earlier triggers, and the
   * new trigger's text goes last: after the opening of the fragment when it is
   * the first, after `", "` otherwise.
   */
  lemma WithTriggerRender(h: Hx, t: Trigger)
    ensures WithTrigger(h, t).url == h.url && WithTrigger(h, t).target == h.target
    ensures WithTrigger(h, t).triggers[..|h.triggers|] == h.triggers
    ensures h.triggers == [] ==>
      HxText(WithTrigger(h, t)) == HxText(h) + (" hx-trigger=\"" + TriggerText(t) + "\"")
    ensures h.triggers != [] ==>
      HxText(WithTrigger(h, t)) == HxText(h)[..|HxText(h)| - 1] + (", " + TriggerText(t) + "\"")
  {
    var ts := h.triggers + [t];
    assert ts[..|h.triggers|] == h.triggers;
    TriggerTextsAppend(h.triggers, t);
    var x := TriggerText(t);
    var rt := RequestText(h.url) + TargetAttr(h.target);
    if h.triggers == [] {
      assert TriggerTexts(ts) == [x];
    } else {
      var p := Join(TriggerTexts(h.triggers));
      JoinAppend(TriggerTexts(h.triggers), x);
      var pre := rt + (" hx-trigger=\"" + p);
      ConcatAssoc(rt, " hx-trigger=\"" + p, "\"");
      assert HxText(h) == pre + "\"";
      assert HxText(h)[..|HxText(h)| - 1] == pre;
      calc {
        HxText(WithTrigger(h, t));
        rt + (" hx-trigger=\"" + (p + ", " + x) + "\"");
        { ConcatAssoc(p, ", ", x); ConcatAssoc(" hx-trigger=\"", p, ", " + x); }
        rt + ((" hx-trigger=\"" + p) + (", " + x) + "\"");
        { ConcatAssoc(" hx-trigger=\"" + p, ", " + x, "\""); }
        rt + ((" hx-trigger=\"" + p) + (", " + x + "\""));
        { ConcatAssoc(rt, " hx-trigger=\"" + p, ", " + x + "\""); }
        pre + (", " + x + "\"");
      }
    }
  }

  /** The value built by the builder chain of the source's unit test. */
  lemma ExampleChainBuilds()
    ensures WithTrigger(
              WithTrigger(
                WithTarget(HxGet("/notifications"), "closest div#lol"),
                EventWithConditional(Every(Duration("1.5s")), "ctrlKey")),
              WithModifier(WithModifier(EventWithModifier(Click, Delay(Duration("2.5s"))), Changed), Consume))
         == Hx(Get("/notifications"), O.Some("closest div#lol"),
               [Trigger(Every(Duration("1.5s")), O.Some("ctrlKey"), []),
                Trigger(Click, O.None, [Delay(Duration("2.5s")), Changed, Consume])])
  {
    assert [] + [Delay(Duration("2.5s"))] + [Changed] + [Consume] == [Delay(Duration("2.5s")), Changed, Consume];
  }

  /** The modifiers of the second trigger of the source's unit test, rendered in order. */
  lemma ExampleModifiersText()
    ensures ModifiersText([Delay(Duration("2.5s")), Changed, Consume]) == " delay:2.5s changed consume"
  {
    var ms := [Delay(Duration("2.5s")), Changed, Consume];
    assert ms[..2][..1] == [Delay(Duration("2.5s"))];
    assert ms[..2] == [Delay(Duration("2.5s")), Changed];
    assert ModifiersText(ms[..2][..1]) == " delay:2.5s";
    assert ModifiersText(ms[..2]) == " delay:2.5s changed";
  }

  /** The first trigger of the source's unit test: an event with a conditional. */
  lemma ExampleConditionalTrigger()
    ensures TriggerText(Trigger(Every(Duration("1.5s")), O.Some("ctrlKey"), [])) == "every 1.5s [ctrlKey]"
  {
  }

  /** The second trigger of the source's unit test: an event with three modifiers, in the order they were added. */
  lemma ExampleModifiedTrigger()
    ensures TriggerText(Trigger(Click, O.None, [Delay(Duration("2.5s")), Changed, Consume]))
         == "click" + " delay:2.5s changed consume"
  {
    ExampleModifiersText();
  }

  /** An `Hx` with a target and two triggers renders all three attributes, the triggers in order. */
  lemma TargetAndTwoTriggers(r: Request, target: string, t0: Trigger, t1: Trigger)
    ensures HxText(Hx(r, O.Some(target), [t0, t1]))
         == RequestText(r) + (" hx-target=\"" + target + "\"")
            + (" hx-trigger=\"" + (TriggerText(t0) + ", " + TriggerText(t1)) + "\"")
  {
    var parts := [TriggerText(t0), TriggerText(t1)];
    TriggerTextsAppend([], t0);
    TriggerTextsAppend([t0], t1);
    assert [t0] + [t1] == [t0, t1];
    assert TriggerTexts([t0, t1]) == parts;
    assert parts[1..] == [TriggerText(t1)];
    assert Join(parts[1..]) == TriggerText(t1);
  }

  /** What the value built in the source's unit test renders, fragment by fragment. */
  lemma HxConstructionExample()
    ensures
      HxText(Hx(Get("/notifications"), O.Some("closest div#lol"),
                [Trigger(Every(Duration("1.5s")), O.Some("ctrlKey"), []),
                 Trigger(Click, O.None, [Delay(Duration("2.5s")), Changed, Consume])]))
      == RequestText(Get("/notifications")) + (" hx-target=\"" + "closest div#lol" + "\"")
         + (" hx-trigger=\"" + ("every 1.5s [ctrlKey]" + ", " + ("click" + " delay:2.5s changed consume")) + "\"")
  {
    ExampleConditionalTrigger();
    ExampleModifiedTrigger();
    TargetAndTwoTriggers(Get("/notifications"), "closest div#lol",
      Trigger(Every(Duration("1.5s")), O.Some("ctrlKey"), []),
      Trigger(Click, O.None, [Delay(Duration("2.5s")), Changed, Consume]));
  }

  /** The request fragment of that example. */
  lemma GetRequestExample()
    ensures RequestText(Get("/notifications")) == "hx-get=\"/notifications\""
  {
  }

  // ---------------------------------------------------------------------------
  // Keyword tables are injective: distinct values never render alike

  lemma ScrollAndQueueInjective(d1: ScrollDirection, d2: ScrollDirection, q1: QueueOption, q2: QueueOption)
    ensures ScrollText(d1) == ScrollText(d2) ==> d1 == d2
    ensures QueueText(q1) == QueueText(q2) ==> q1 == q2
  {
  }

  lemma EventTextInjective(a: TriggerEvent, b: TriggerEvent)
    ensures EventText(a) == EventText(b) ==> a == b
  {
    if EventText(a) == EventText(b) {
      var s := EventText(a);
      assert s[0] == EventText(b)[0] && s[1] == EventText(b)[1];
      if a.Every? && b.Every? {
        SplitAfter("every ", DurationText(a.timing));
        SplitAfter("every ", DurationText(b.timing));
      }
    }
  }

  lemma ModifierTextInjective(a: EventModifier, b: EventModifier)
    ensures ModifierText(a) == ModifierText(b) ==> a == b
  {
    if ModifierText(a) == ModifierText(b) {
      var s := ModifierText(a);
      assert s[0] == ModifierText(b)[0] && s[1] == ModifierText(b)[1];
      match a
      case Delay(t) => SplitAfter("delay:", DurationText(t)); SplitAfter("delay:", DurationText(b.delay));
      case Throttle(t) => SplitAfter("throttle:", DurationText(t)); SplitAfter("throttle:", DurationText(b.throttle));
      case From(x) => SplitAfter("from:", x); SplitAfter("from:", b.source);
      case Target(x) => SplitAfter("target:", x); SplitAfter("target:", b.selector);
      case Queue(q) => SplitAfter("queue:", QueueText(q)); SplitAfter("queue:", QueueText(b.option));
      case _ =>
    }
  }

  // ---------------------------------------------------------------------------
  // Swaps

  datatype SwapModifiers = SwapModifiers(
    transition: O.Option<bool>,
    swapDelay: O.Option<Duration>,
    settleDelay: O.Option<Duration>,
    ignoreTitle: O.Option<bool>,
    scroll: O.Option<ScrollDirection>,
    show: O.Option<ScrollDirection>)

  /** `Display for SwapModifiers`: each present field, in the fixed order, with a leading space. */
  function SwapModifiersText(m: SwapModifiers): string
  {
    (match m.transition case Some(b) => " transition:" + BoolText(b) case None => "")
    + (match m.swapDelay case Some(d) => " swap:" + DurationText(d) case None => "")
    + (match m.settleDelay case Some(d) => " settle:" + DurationText(d) case None => "")
    + (match m.ignoreTitle case Some(b) => " ignoreTitle:" + BoolText(b) case None => "")
    + (match m.scroll case Some(d) => " scroll:" + ScrollText(d) case None => "")
    + (match m.show case Some(d) => " show:" + ScrollText(d) case None => "")
  }

  /** The swap modifiers render as nothing exactly when no field is set, and otherwise begin with a space. */
  lemma SwapModifiersTextEmpty(m: SwapModifiers)
    ensures SwapModifiersText(m) == "" <==>
      m.transition.None? && m.swapDelay.None? && m.settleDelay.None?
      && m.ignoreTitle.None? && m.scroll.None? && m.show.None?
    ensures SwapModifiersText(m) != "" ==> SwapModifiersText(m)[0] == ' '
  {
  }

  datatype SwapTarget =
    | InnerHtml
    | OuterHtml
    | BeforeBegin
    | AfterBegin
    | BeforeEnd
    | AfterEnd
    | Delete
    | None
    | This
    | Closest(closest: string)
    | Find(find: string)
    | Next(next: string)
    | Previous(previous: string)

  /** `#[default]` on `SwapTarget`. */
  function DefaultSwapTarget(): SwapTarget
  {
    InnerHtml
  }

  datatype Swap = Swap(target: SwapTarget, modifiers: O.Option<SwapModifiers>)

  /** `Display for SwapTarget`. */
  function SwapTargetText(t: SwapTarget): string
  {
    match t
    case InnerHtml => "innerHTML"
    case OuterHtml => "outerHTML"
    case BeforeBegin => "beforebegin"
    case AfterBegin => "afterbegin"
    case BeforeEnd => "beforeend"
    case AfterEnd => "afterend"
    case Delete => "delete"
    case None => "none"
    case This => "this"
    case Closest(value) => "closest:" + value
    case Find(value) => "find:" + value
    case Next(value) => "next:" + value
    case Previous(value) => "previous:" + value
  }

  lemma SwapTargetTextInjective(a: SwapTarget, b: SwapTarget)
    ensures SwapTargetText(a) == SwapTargetText(b) ==> a == b
  {
    if SwapTargetText(a) == SwapTargetText(b) {
      var s := SwapTargetText(a);
      assert s[0] == SwapTargetText(b)[0] && s[1] == SwapTargetText(b)[1];
      match a
      case Closest(x) => SplitAfter("closest:", x); SplitAfter("closest:", b.closest);
      case Find(x) => SplitAfter("find:", x); SplitAfter("find:", b.find);
      case Next(x) => SplitAfter("next:", x); SplitAfter("next:", b.next);
      case Previous(x) => SplitAfter("previous:", x); SplitAfter("previous:", b.previous);
      case _ =>
    }
  }
}
