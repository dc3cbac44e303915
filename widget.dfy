/** UI widgets' input and focus state, for all widgets at once. It covers
    the fingers that hold each widget down, the focus flag, the links of the
    focus chain, and the look whose changes rebuild the widget's mesh.
    A widget is known by its id, and a link is the id of the widget it
    points at; signals are appended to a ghost trace. */
module Widget {
  import opened Wrappers
  import EventListener

  type WidgetId = nat
  type FingerId = int

  datatype Colour = Colour(r: real, g: real, b: real, a: real)

  datatype Rect = Rect(bottomLeft: EventListener.Vec2, size: EventListener.Vec2)

  /** The settings whose change rebuilds the mesh. */
  datatype Look = Look(
    width: real,
    height: real,
    borderWidth: real,
    borderColour: Colour,
    text: string,
    backgroundColour: Colour,
    foregroundColour: Colour,
    textColour: Colour,
    backgroundImage: nat,
    backgroundRect: Rect,
    foregroundImage: nat,
    foregroundRect: Rect)

  /** One widget. `meshBuilds` counts the meshes built for it. */
  datatype WidgetState = WidgetState(
    fingersDown: set<FingerId>,
    isFocused: bool,
    next: Option<WidgetId>,
    previous: Option<WidgetId>,
    look: Look,
    initialized: bool,
    meshBuilds: nat)

  type Table = map<WidgetId, WidgetState>

  datatype Signal =
    | Pressed(widget: WidgetId)
    | Released(widget: WidgetId)
    | Clicked(widget: WidgetId)
    | Focused(widget: WidgetId)
    | Blurred(widget: WidgetId)

  // ---------------------------------------------------------------- fingers

  /** fingerdown fires "pressed" when the insert added the finger and the
      set now holds exactly one. */
  predicate PressesOnDown(held: set<FingerId>, f: FingerId)
  {
    f !in held && |held + {f}| == 1
  }

  /** fingerup fires "released" and "clicked" when the erase removed the
      finger and the set is now empty; fingerleave fires "released" alone. */
  predicate ReleasesOnUp(held: set<FingerId>, f: FingerId)
  {
    f in held && held - {f} == {}
  }

  /** "pressed" fires exactly for the first finger down. */
  lemma PressedOnFirstFinger(held: set<FingerId>, f: FingerId)
    ensures PressesOnDown(held, f) <==> held == {}
  {
    if held == {} {
      assert held + {f} == {f};
    } else if f !in held {
      assert held * {f} == {};
      assert |held + {f}| == |held| + 1;
    }
  }

  /** "released" fires exactly when the last finger goes. */
  lemma ReleasedOnLastFinger(held: set<FingerId>, f: FingerId)
    ensures ReleasesOnUp(held, f) <==> held == {f}
  {
    if ReleasesOnUp(held, f) {
      assert held == (held - {f}) + {f};
    }
  }

  /** A call the UI manager makes on a widget a touch hit. */
  datatype FingerCall =
    | FingerDownCall(widget: WidgetId, finger: FingerId)
    | FingerUpCall(widget: WidgetId, finger: FingerId)

  /** The fingers holding a widget down; none for an unknown id. */
  function Held(t: Table, w: WidgetId): set<FingerId>
  {
    if w in t then t[w].fingersDown else {}
  }

  /** The table after a finger call: the finger is held after a down and not
      after an up, and nothing else changes. */
  function AfterCall(t: Table, c: FingerCall): (r: Table)
    ensures r.Keys == t.Keys
    ensures forall x :: x in t && x != c.widget ==> r[x] == t[x]
    ensures c.widget in t ==> r[c.widget] == t[c.widget].(fingersDown := r[c.widget].fingersDown)
    ensures c.widget in t ==> (c.finger in Held(r, c.widget) <==> c.FingerDownCall?)
    ensures forall g :: g != c.finger ==> (g in Held(r, c.widget) <==> g in Held(t, c.widget))
  {
    if c.widget !in t then t
    else
      var s := t[c.widget];
      var held := if c.FingerDownCall? then s.fingersDown + {c.finger} else s.fingersDown - {c.finger};
      t[c.widget := s.(fingersDown := held)]
  }

  /** The signals a finger call fires: "pressed" when no finger held the
      widget, "released" then "clicked" when the finger was the only one. */
  function CallSignals(t: Table, c: FingerCall): (r: seq<Signal>)
    ensures c.FingerDownCall? ==>
      r == if c.widget in t && Held(t, c.widget) == {} then [Pressed(c.widget)] else []
    ensures c.FingerUpCall? ==>
      r == if c.widget in t && Held(t, c.widget) == {c.finger} then [Released(c.widget), Clicked(c.widget)] else []
  {
    if c.widget !in t then []
    else
      var held := t[c.widget].fingersDown;
      match c
      case FingerDownCall(w, f) =>
        PressedOnFirstFinger(held, f);
        if PressesOnDown(held, f) then [Pressed(w)] else []
      case FingerUpCall(w, f) =>
        ReleasedOnLastFinger(held, f);
        if ReleasesOnUp(held, f) then [Released(w), Clicked(w)] else []
  }

  /** The table after a sequence of finger calls, in order. */
  function Replay(t: Table, calls: seq<FingerCall>): (r: Table)
    ensures r.Keys == t.Keys
  {
    if calls == [] then t
    else AfterCall(Replay(t, calls[..|calls| - 1]), calls[|calls| - 1])
  }

  /** The signals those calls fire, in order. */
  function ReplaySignals(t: Table, calls: seq<FingerCall>): seq<Signal>
  {
    if calls == [] then []
    else
      var front := calls[..|calls| - 1];
      ReplaySignals(t, front) + CallSignals(Replay(t, front), calls[|calls| - 1])
  }

  lemma ReplayStep(t: Table, calls: seq<FingerCall>, c: FingerCall)
    ensures Replay(t, calls + [c]) == AfterCall(Replay(t, calls), c)
    ensures ReplaySignals(t, calls + [c]) == ReplaySignals(t, calls) + CallSignals(Replay(t, calls), c)
  {
    assert (calls + [c])[..|calls|] == calls;
  }

  lemma ReplayOne(t: Table, c: FingerCall)
    ensures Replay(t, [c]) == AfterCall(t, c)
    ensures ReplaySignals(t, [c]) == CallSignals(t, c)
  {
    ReplayStep(t, [], c);
    assert [] + [c] == [c];
  }

  /** Replaying two runs of calls one after the other is replaying the
      second from where the first left off. */
  lemma {:induction false} ReplayAppend(t: Table, a: seq<FingerCall>, b: seq<FingerCall>)
    ensures Replay(t, a + b) == Replay(Replay(t, a), b)
    decreases |b|
  {
    if b == [] {
      assert a + b == a;
    } else {
      var n := |b| - 1;
      ReplayAppend(t, a, b[..n]);
      assert (a + b)[..|a + b| - 1] == a + b[..n];
      assert (a + b)[|a + b| - 1] == b[n];
      calc {
        Replay(t, a + b);
        AfterCall(Replay(t, a + b[..n]), b[n]);
        AfterCall(Replay(Replay(t, a), b[..n]), b[n]);
        Replay(Replay(t, a), b);
      }
    }
  }

  /** The signals of two runs of calls are those of the first, then those
      the second fires from where the first left off. */
  lemma {:induction false} ReplaySignalsAppend(t: Table, a: seq<FingerCall>, b: seq<FingerCall>)
    ensures ReplaySignals(t, a + b) == ReplaySignals(t, a) + ReplaySignals(Replay(t, a), b)
    decreases |b|
  {
    if b == [] {
      assert a + b == a;
    } else {
      var n := |b| - 1;
      var t1 := Replay(t, a);
      ReplaySignalsAppend(t, a, b[..n]);
      ReplayAppend(t, a, b[..n]);
      assert (a + b)[..|a + b| - 1] == a + b[..n];
      assert (a + b)[|a + b| - 1] == b[n];
      var tail := CallSignals(Replay(t1, b[..n]), b[n]);
      calc {
        ReplaySignals(t, a + b);
        ReplaySignals(t, a + b[..n]) + CallSignals(Replay(t, a + b[..n]), b[n]);
        (ReplaySignals(t, a) + ReplaySignals(t1, b[..n])) + tail;
        { AppendAssociative(ReplaySignals(t, a), ReplaySignals(t1, b[..n]), tail); }
        ReplaySignals(t, a) + (ReplaySignals(t1, b[..n]) + tail);
      }
    }
  }

  /** A tap, one finger down and up on a widget no finger holds, fires
      "pressed", "released" and "clicked" and leaves the table as it was. */
  lemma TapRoundTrip(t: Table, w: WidgetId, f: FingerId)
    requires w in t && Held(t, w) == {}
    ensures Replay(t, [FingerDownCall(w, f), FingerUpCall(w, f)]) == t
    ensures ReplaySignals(t, [FingerDownCall(w, f), FingerUpCall(w, f)]) == [Pressed(w), Released(w), Clicked(w)]
  {
    var down, up := FingerDownCall(w, f), FingerUpCall(w, f);
    ReplayStep(t, [], down);
    assert [] + [down] == [down];
    ReplayStep(t, [down], up);
    assert [down] + [up] == [down, up];
    var t1 := AfterCall(t, down);
    assert Held(t1, w) == {f};
    var t2 := AfterCall(t1, up);
    assert t2[w].fingersDown == {};
    assert t2[w] == t[w];
    assert t2 == t;
  }

  // ------------------------------------------------------------ focus chain

  /** focus_next_ is followed Forward, focus_previous_ Backward. */
  datatype Direction = Forward | Backward

  function Reverse(d: Direction): (r: Direction)
    ensures r != d
  {
    if d == Forward then Backward else Forward
  }

  /** A widget's link in one direction; none for an unknown id. */
  function Link(t: Table, w: WidgetId, d: Direction): Option<WidgetId>
  {
    if w !in t then None
    else if d == Forward then t[w].next
    else t[w].previous
  }

  /** No link dangles: every link names a live widget. */
  predicate LinksClosed(t: Table)
  {
    forall w, d :: w in t && Link(t, w, d).Some? ==> Link(t, w, d).value in t
  }

  predicate FocusedAt(t: Table, w: WidgetId)
  {
    w in t && t[w].isFocused
  }

  /** The table with one widget's focus flag set to `b`. */
  function WithFocus(t: Table, w: WidgetId, b: bool): (r: Table)
    ensures r.Keys == t.Keys
    ensures w in t ==> (FocusedAt(r, w) <==> b)
    ensures forall x :: x in t && x != w ==> r[x] == t[x]
  {
    if w in t then t[w := t[w].(isFocused := b)] else t
  }

  /** The table after the focus moves from `f` to `g`: nothing changes when
      they are one widget; otherwise `f` ends blurred and `g` focused. */
  function Refocused(t: Table, f: WidgetId, g: WidgetId): (r: Table)
    ensures r.Keys == t.Keys
    ensures f != g && g in t ==> FocusedAt(r, g)
    ensures f != g && f in t ==> !FocusedAt(r, f)
    ensures forall x :: x in t && x != f && x != g ==> r[x] == t[x]
  {
    if f == g then t else WithFocus(WithFocus(t, f, false), g, true)
  }

  /** The signals of that move: "blurred" for `f`, then "focused" for `g`. */
  function RefocusSignals(f: WidgetId, g: WidgetId): seq<Signal>
  {
    if f == g then [] else [Blurred(f), Focused(g)]
  }

  /** A walk gets as many steps as there are widgets, plus one. With closed
      links, a walk that has not ended by then revisits a widget and so
      never ends. */
  function Bound(t: Table): nat
  {
    |t| + 1
  }

  /** The widgets a walk from `cur` visits, within `fuel` steps, before it
      meets a null link or the widget `self` it started from. */
  function Walk(t: Table, d: Direction, self: WidgetId, cur: Option<WidgetId>, fuel: nat): (r: seq<WidgetId>)
    ensures forall i :: 0 <= i < |r| ==> r[i] != self
    decreases fuel
  {
    if fuel == 0 || cur.None? || cur.value == self then []
    else [cur.value] + Walk(t, d, self, Link(t, cur.value, d), fuel - 1)
  }

  /** The walk from `cur` meets a null link or `self` within `fuel` steps. */
  predicate Ends(t: Table, d: Direction, self: WidgetId, cur: Option<WidgetId>, fuel: nat)
    decreases fuel
  {
    fuel > 0 && (cur.None? || cur.value == self || Ends(t, d, self, Link(t, cur.value, d), fuel - 1))
  }

  /** The walk focused_in_chain_or_this makes from `w` in one direction. */
  function ChainWalk(t: Table, w: WidgetId, d: Direction): seq<WidgetId>
  {
    Walk(t, d, w, Link(t, w, d), Bound(t))
  }

  /** Both of focused_in_chain_or_this's walks from `w` end. */
  predicate WalksEnd(t: Table, w: WidgetId)
  {
    Ends(t, Forward, w, Link(t, w, Forward), Bound(t)) && Ends(t, Backward, w, Link(t, w, Backward), Bound(t))
  }

  /** The first focused widget of a sequence. */
  function FirstFocused(t: Table, s: seq<WidgetId>): (r: Option<WidgetId>)
    ensures r.None? <==> forall i :: 0 <= i < |s| ==> !FocusedAt(t, s[i])
    ensures r.Some? ==> exists i :: (0 <= i < |s| && s[i] == r.value && FocusedAt(t, s[i]) &&
      forall j :: 0 <= j < i ==> !FocusedAt(t, s[j]))
  {
    if s == [] then None
    else if FocusedAt(t, s[0]) then Some(s[0])
    else
      var r := FirstFocused(t, s[1..]);
      assert r.Some? ==> exists i :: (0 <= i < |s| && s[i] == r.value && FocusedAt(t, s[i]) &&
        forall j :: 0 <= j < i ==> !FocusedAt(t, s[j])) by {
        if r.Some? {
          var i :| 0 <= i < |s[1..]| && s[1..][i] == r.value && FocusedAt(t, s[1..][i]) &&
            forall j :: 0 <= j < i ==> !FocusedAt(t, s[1..][j]);
          assert s[i + 1] == r.value;
        }
      }
      r
  }

  lemma FirstFocusedCons(t: Table, x: WidgetId, rest: seq<WidgetId>)
    ensures FirstFocused(t, [x] + rest) == if FocusedAt(t, x) then Some(x) else FirstFocused(t, rest)
  {
    assert ([x] + rest)[1..] == rest;
  }

  /** focused_in_chain_or_this: the first focused widget along the next
      links, else along the previous links, else `w` itself. */
  function FocusedOrThis(t: Table, w: WidgetId): (r: WidgetId)
    ensures r != w ==> FocusedAt(t, r)
  {
    match FirstFocused(t, ChainWalk(t, w, Forward))
    case Some(x) => x
    case None =>
      match FirstFocused(t, ChainWalk(t, w, Backward))
      case Some(x) => x
      case None => w
  }

  /** focused_in_chain_or_this gives back `w` exactly when neither walk
      passes a focused widget. */
  lemma ThisWhenNoneFocusedOnWalks(t: Table, w: WidgetId)
    ensures FocusedOrThis(t, w) == w <==>
      (forall i :: 0 <= i < |ChainWalk(t, w, Forward)| ==> !FocusedAt(t, ChainWalk(t, w, Forward)[i])) &&
      (forall i :: 0 <= i < |ChainWalk(t, w, Backward)| ==> !FocusedAt(t, ChainWalk(t, w, Backward)[i]))
  {
    var fw, bw := ChainWalk(t, w, Forward), ChainWalk(t, w, Backward);
    var a, b := FirstFocused(t, fw), FirstFocused(t, bw);
    if a.Some? {
      var i :| 0 <= i < |fw| && fw[i] == a.value && FocusedAt(t, fw[i]);
      assert a.value != w;
    } else if b.Some? {
      var i :| 0 <= i < |bw| && bw[i] == b.value && FocusedAt(t, bw[i]);
      assert b.value != w;
    }
  }

  /** focused_in_chain: none exactly when the walks find nothing and `w`
      itself is not focused. */
  function FocusedInChain(t: Table, w: WidgetId): (r: Option<WidgetId>)
    ensures r.None? <==> FocusedOrThis(t, w) == w && !FocusedAt(t, w)
    ensures r.Some? ==> FocusedAt(t, r.value)
  {
    var f := FocusedOrThis(t, w);
    if f == w && !FocusedAt(t, w) then None else Some(f)
  }

  /** With no widget focused anywhere, focused_in_chain_or_this gives back
      the widget it was asked on. */
  lemma NoneFocusedGivesThis(t: Table, w: WidgetId)
    requires forall x :: x in t ==> !FocusedAt(t, x)
    ensures FocusedOrThis(t, w) == w
    ensures FocusedInChain(t, w).None?
  {
    ThisWhenNoneFocusedOnWalks(t, w);
  }

  /** When one widget is focused in the whole table and a walk from `w`
      passes it, focused_in_chain_or_this finds that widget. */
  lemma FindsTheFocusedWidget(t: Table, w: WidgetId, x: WidgetId, d: Direction)
    requires forall y :: FocusedAt(t, y) <==> y == x
    requires x in ChainWalk(t, w, d)
    ensures FocusedOrThis(t, w) == x
  {
    ThisWhenNoneFocusedOnWalks(t, w);
    var i :| 0 <= i < |ChainWalk(t, w, d)| && ChainWalk(t, w, d)[i] == x;
    if d == Forward {
      assert FocusedAt(t, ChainWalk(t, w, Forward)[i]);
    } else {
      assert FocusedAt(t, ChainWalk(t, w, Backward)[i]);
    }
  }

  /** The widget a walk to the end of the chain stops at. */
  predicate ChainEnds(t: Table, d: Direction, cur: WidgetId, fuel: nat)
    decreases fuel
  {
    fuel > 0 && (Link(t, cur, d).None? || ChainEnds(t, d, Link(t, cur, d).value, fuel - 1))
  }

  /** first_in_focus_chain (Backward) and last_in_focus_chain (Forward):
      the widget with no further link in that direction. */
  function ChainEnd(t: Table, d: Direction, cur: WidgetId, fuel: nat): (r: WidgetId)
    requires ChainEnds(t, d, cur, fuel)
    ensures Link(t, r, d).None?
    ensures LinksClosed(t) && cur in t ==> r in t
    decreases fuel
  {
    if Link(t, cur, d).None? then cur else ChainEnd(t, d, Link(t, cur, d).value, fuel - 1)
  }

  /** focus_next_in_chain (Forward) and focus_previous_in_chain (Backward)
      move the focus from `FocusedOrThis` to its neighbour, or, when it has
      none, to the far end of `w`'s chain in the opposite direction. */
  function FocusTarget(t: Table, w: WidgetId, d: Direction): (r: WidgetId)
    requires Link(t, FocusedOrThis(t, w), d).None? ==> ChainEnds(t, Reverse(d), w, Bound(t))
    ensures Link(t, FocusedOrThis(t, w), d).Some? ==> r == Link(t, FocusedOrThis(t, w), d).value
    ensures Link(t, FocusedOrThis(t, w), d).None? ==> Link(t, r, Reverse(d)).None?
  {
    var f := FocusedOrThis(t, w);
    if Link(t, f, d).Some? then Link(t, f, d).value else ChainEnd(t, Reverse(d), w, Bound(t))
  }

  /** Two states of a widget that differ at most in their links. */
  predicate SameButLinks(a: WidgetState, b: WidgetState)
  {
    a.fingersDown == b.fingersDown && a.isFocused == b.isFocused && a.look == b.look &&
    a.initialized == b.initialized && a.meshBuilds == b.meshBuilds
  }

  /** The table after set_focus_next (Forward) or set_focus_previous
      (Backward): the link is set, and a widget linked to gets the reverse
      link back; flags, fingers and looks stay. */
  function Linked(t: Table, w: WidgetId, d: Direction, n: Option<WidgetId>): (r: Table)
    requires w in t && (n.Some? ==> n.value in t)
    ensures r.Keys == t.Keys
    ensures forall x :: x in t ==> SameButLinks(r[x], t[x])
  {
    var t1 := t[w := if d == Forward then t[w].(next := n) else t[w].(previous := n)];
    if n.None? then t1
    else
      var m := t1[n.value];
      t1[n.value := if d == Forward then m.(previous := Some(w)) else m.(next := Some(w))]
  }

  /** After linking `w` to `n`, `w`'s link is `n`, `n` links back to `w`,
      and every other link is as it was. */
  lemma LinkedLinks(t: Table, w: WidgetId, d: Direction, n: Option<WidgetId>)
    requires w in t && (n.Some? ==> n.value in t)
    ensures Link(Linked(t, w, d, n), w, d) == n
    ensures n.Some? ==> Link(Linked(t, w, d, n), n.value, Reverse(d)) == Some(w)
    ensures forall x, e :: x in t && !(x == w && e == d) && !(n == Some(x) && e == Reverse(d)) ==>
      Link(Linked(t, w, d, n), x, e) == Link(t, x, e)
  {
    var r := Linked(t, w, d, n);
    forall x, e | x in t && !(x == w && e == d) && !(n == Some(x) && e == Reverse(d))
      ensures Link(r, x, e) == Link(t, x, e)
    {
      if x == w {
        assert e == Reverse(d);
      }
    }
  }

  /** Linking to a live widget keeps every link pointing at a live widget. */
  lemma LinkedKeepsLinksClosed(t: Table, w: WidgetId, d: Direction, n: Option<WidgetId>)
    requires w in t && (n.Some? ==> n.value in t) && LinksClosed(t)
    ensures LinksClosed(Linked(t, w, d, n))
  {
    var r := Linked(t, w, d, n);
    LinkedLinks(t, w, d, n);
    forall x, e | x in r && Link(r, x, e).Some?
      ensures Link(r, x, e).value in r
    {
      if !(x == w && e == d) && !(n == Some(x) && e == Reverse(d)) {
        assert Link(r, x, e) == Link(t, x, e);
      }
    }
  }

  /** A link equal to `Some(w)` is dropped. */
  function Drop(o: Option<WidgetId>, w: WidgetId): Option<WidgetId>
  {
    if o == Some(w) then None else o
  }

  /** Every link into `w` from another widget is matched by `w`'s own link
      back to it, so the destructor's neighbours are the only widgets that
      point at `w`. */
  predicate BackLinked(t: Table, w: WidgetId)
    requires w in t
  {
    (forall x :: x in t && x != w && Link(t, x, Forward) == Some(w) ==> t[w].previous == Some(x)) &&
    (forall x :: x in t && x != w && Link(t, x, Backward) == Some(w) ==> t[w].next == Some(x))
  }

  /** The table after the widget's destructor and its removal: the next
      widget's back-link and the previous widget's forward link are cleared
      when they point at `w`; no other link changes. */
  function Destroyed(t: Table, w: WidgetId): (r: Table)
    requires w in t
    ensures r.Keys == t.Keys - {w}
    ensures forall x :: x in r ==> r[x] == t[x].(next := r[x].next, previous := r[x].previous)
    ensures forall x :: x in r ==> r[x].next == t[x].next || (r[x].next.None? && t[x].next == Some(w))
    ensures forall x :: x in r ==> r[x].previous == t[x].previous || (r[x].previous.None? && t[x].previous == Some(w))
  {
    map x | x in t && x != w ::
      t[x].(
        next := if t[w].previous == Some(x) && t[x].next == Some(w) then None else t[x].next,
        previous := if t[w].next == Some(x) && t[x].previous == Some(w) then None else t[x].previous)
  }

  /** The destructor reads only the widget's links, so releasing its
      fingers first leaves the same table. */
  lemma DestroyedIgnoresFingers(t: Table, w: WidgetId)
    requires w in t
    ensures Destroyed(t[w := t[w].(fingersDown := {})], w) == Destroyed(t, w)
  {
    var t' := t[w := t[w].(fingersDown := {})];
    assert forall x :: x in Destroyed(t', w) ==> Destroyed(t', w)[x] == Destroyed(t, w)[x];
  }

  /** When every link into `w` is matched, the destructor removes exactly
      the links to `w`, so no link dangles afterwards. */
  lemma DestroyedLeavesNoDangling(t: Table, w: WidgetId)
    requires w in t && BackLinked(t, w) && LinksClosed(t)
    ensures forall x :: x in Destroyed(t, w) ==>
      Link(Destroyed(t, w), x, Forward) == Drop(t[x].next, w) &&
      Link(Destroyed(t, w), x, Backward) == Drop(t[x].previous, w)
    ensures LinksClosed(Destroyed(t, w))
  {
    var r := Destroyed(t, w);
    forall x | x in r
      ensures Link(r, x, Forward) == Drop(t[x].next, w) && Link(r, x, Backward) == Drop(t[x].previous, w)
    {
      if t[x].next == Some(w) {
        assert Link(t, x, Forward) == Some(w);
      }
      if t[x].previous == Some(w) {
        assert Link(t, x, Backward) == Some(w);
      }
    }
    forall x, d | x in r && Link(r, x, d).Some?
      ensures Link(r, x, d).value in r
    {
      assert Link(r, x, d) == Drop(Link(t, x, d), w);
    }
  }

  // -------------------------------------------------------------- the look

  /** A change one of the equality-guarded setters makes: resize sets both
      sides, the others one setting each. */
  datatype Setting =
    | Size(width: real, height: real)
    | Width(width: real)
    | Height(height: real)
    | BorderWidth(borderWidth: real)
    | BorderColour(borderColour: Colour)
    | Text(text: string)
    | BackgroundColour(backgroundColour: Colour)
    | ForegroundColour(foregroundColour: Colour)
    | TextColour(textColour: Colour)
    | BackgroundRect(backgroundRect: Rect)
    | ForegroundRect(foregroundRect: Rect)

  /** The look already has the setting: the setter's guard. */
  predicate Holds(l: Look, s: Setting)
  {
    match s
    case Size(w, h) => l.width == w && l.height == h
    case Width(w) => l.width == w
    case Height(h) => l.height == h
    case BorderWidth(x) => l.borderWidth == x
    case BorderColour(c) => l.borderColour == c
    case Text(x) => l.text == x
    case BackgroundColour(c) => l.backgroundColour == c
    case ForegroundColour(c) => l.foregroundColour == c
    case TextColour(c) => l.textColour == c
    case BackgroundRect(x) => l.backgroundRect == x
    case ForegroundRect(x) => l.foregroundRect == x
  }

  /** The look with the setting stored: afterwards it holds, and nothing
      changed exactly when it held before. */
  function With(l: Look, s: Setting): (r: Look)
    ensures Holds(r, s)
    ensures Holds(l, s) <==> r == l
  {
    match s
    case Size(w, h) => l.(width := w, height := h)
    case Width(w) => l.(width := w)
    case Height(h) => l.(height := h)
    case BorderWidth(x) => l.(borderWidth := x)
    case BorderColour(c) => l.(borderColour := c)
    case Text(x) => l.(text := x)
    case BackgroundColour(c) => l.(backgroundColour := c)
    case ForegroundColour(c) => l.(foregroundColour := c)
    case TextColour(c) => l.(textColour := c)
    case BackgroundRect(x) => l.(backgroundRect := x)
    case ForegroundRect(x) => l.(foregroundRect := x)
  }

  /** A widget after a setter: unchanged when the setting already held;
      otherwise stored, and one mesh built if the widget is initialized. */
  function AfterSetting(st: WidgetState, s: Setting): (r: WidgetState)
    ensures Holds(r.look, s)
    ensures r == st <==> Holds(st.look, s)
    ensures r.meshBuilds == st.meshBuilds + (if !Holds(st.look, s) && st.initialized then 1 else 0)
    ensures r.(look := st.look, meshBuilds := st.meshBuilds) == st
  {
    if Holds(st.look, s) then st
    else st.(look := With(st.look, s), meshBuilds := st.meshBuilds + if st.initialized then 1 else 0)
  }

  /** Setting the same value twice rebuilds at most once. */
  lemma SettingIdempotent(st: WidgetState, s: Setting)
    ensures AfterSetting(AfterSetting(st, s), s) == AfterSetting(st, s)
  {
  }

  datatype Layer = Background | Foreground

  function ImageOf(l: Look, layer: Layer): nat
  {
    if layer == Background then l.backgroundImage else l.foregroundImage
  }

  function RectOf(l: Look, layer: Layer): Rect
  {
    if layer == Background then l.backgroundRect else l.foregroundRect
  }

  /** set_background_image / set_foreground_image: a new texture is stored
      and the source rectangle set to the whole texture, `dims` being its
      dimensions; the rectangle setter decides whether a mesh is built. */
  function AfterImage(st: WidgetState, layer: Layer, texture: nat, dims: EventListener.Vec2): (r: WidgetState)
    ensures ImageOf(r.look, layer) == texture
    ensures r == st <==> ImageOf(st.look, layer) == texture
    ensures ImageOf(st.look, layer) != texture ==> RectOf(r.look, layer) == Rect(EventListener.Zero, dims)
    ensures r.meshBuilds <= st.meshBuilds + 1
  {
    if ImageOf(st.look, layer) == texture then st
    else
      var rect := Rect(EventListener.Zero, dims);
      if layer == Background then
        AfterSetting(st.(look := st.look.(backgroundImage := texture)), BackgroundRect(rect))
      else
        AfterSetting(st.(look := st.look.(foregroundImage := texture)), ForegroundRect(rect))
  }

  // ---------------------------------------------------------- the widgets

  class Widgets {
    var table: Table
    ghost var signals: seq<Signal>

    predicate Valid()
      reads this
    {
      LinksClosed(table)
    }

    constructor ()
      ensures table == map[] && signals == [] && Valid()
    {
      table := map[];
      signals := [];
    }

    /** A new widget: no fingers, unfocused, unlinked, not yet initialized. */
    method Create(w: WidgetId, look: Look)
      requires Valid() && w !in table
      modifies this
      ensures table == old(table)[w := WidgetState({}, false, None, None, look, false, 0)]
      ensures signals == old(signals) && Valid()
    {
      ghost var t0 := table;
      table := table[w := WidgetState({}, false, None, None, look, false, 0)];
      forall x, d | x in table && Link(table, x, d).Some?
        ensures Link(table, x, d).value in table
      {
        assert Link(table, x, d) == Link(t0, x, d);
      }
    }

    /** init: the first mesh is built and the widget is initialized. */
    method Init(w: WidgetId)
      requires w in table
      modifies this
      ensures table == old(table)[w := old(table)[w].(initialized := true, meshBuilds := old(table)[w].meshBuilds + 1)]
      ensures signals == old(signals)
    {
      table := table[w := table[w].(initialized := true, meshBuilds := table[w].meshBuilds + 1)];
    }

    method FingerDown(w: WidgetId, f: FingerId)
      requires w in table
      modifies this
      ensures table == AfterCall(old(table), FingerDownCall(w, f))
      ensures signals == old(signals) + CallSignals(old(table), FingerDownCall(w, f))
    {
      var held := table[w].fingersDown;
      table := table[w := table[w].(fingersDown := held + {f})];
      if f !in held && |held + {f}| == 1 {
        signals := signals + [Pressed(w)];
      }
    }

    /** fingerenter behaves as fingerdown. */
    method FingerEnter(w: WidgetId, f: FingerId)
      requires w in table
      modifies this
      ensures table == AfterCall(old(table), FingerDownCall(w, f))
      ensures signals == old(signals) + CallSignals(old(table), FingerDownCall(w, f))
    {
      FingerDown(w, f);
    }

    method FingerUp(w: WidgetId, f: FingerId)
      requires w in table
      modifies this
      ensures table == AfterCall(old(table), FingerUpCall(w, f))
      ensures signals == old(signals) + CallSignals(old(table), FingerUpCall(w, f))
    {
      var held := table[w].fingersDown;
      table := table[w := table[w].(fingersDown := held - {f})];
      if f in held && held - {f} == {} {
        signals := signals + [Released(w), Clicked(w)];
      }
    }

    /** fingerleave: fingerup without "clicked". */
    method FingerLeave(w: WidgetId, f: FingerId)
      requires w in table
      modifies this
      ensures table == AfterCall(old(table), FingerUpCall(w, f))
      ensures signals == old(signals) + if old(table)[w].fingersDown == {f} then [Released(w)] else []
    {
      var held := table[w].fingersDown;
      ReleasedOnLastFinger(held, f);
      table := table[w := table[w].(fingersDown := held - {f})];
      if f in held && held - {f} == {} {
        signals := signals + [Released(w)];
      }
    }

    /** cleanup: fingerup for every finger of a copy of the held set, so the
        set ends empty and a held widget fires "released" and "clicked" once. */
    method Cleanup(w: WidgetId)
      requires w in table
      modifies this
      ensures table == old(table)[w := old(table)[w].(fingersDown := {})]
      ensures signals == old(signals) + if old(table)[w].fingersDown != {} then [Released(w), Clicked(w)] else []
    {
      ghost var t0, s0 := table, signals;
      var fingers := table[w].fingersDown;
      assert t0 == t0[w := t0[w].(fingersDown := fingers)];
      while |fingers| > 0
        invariant table == t0[w := t0[w].(fingersDown := fingers)]
        invariant signals == s0 + if t0[w].fingersDown != {} && fingers == {} then [Released(w), Clicked(w)] else []
        decreases fingers
      {
        ghost var _ := Pick(fingers);
        var f :| f in fingers;
        FingerUp(w, f);
        fingers := fingers - {f};
      }
    }

    method Blur(w: WidgetId)
      requires w in table
      modifies this
      ensures table == WithFocus(old(table), w, false)
      ensures signals == old(signals) + [Blurred(w)]
    {
      table := table[w := table[w].(isFocused := false)];
      signals := signals + [Blurred(w)];
    }

    /** One of focused_in_chain_or_this's loops: the first focused widget
        along the walk from `w` in direction `d`. */
    method FindFocusedAlong(w: WidgetId, d: Direction) returns (r: Option<WidgetId>)
      requires Ends(table, d, w, Link(table, w, d), Bound(table))
      ensures r == FirstFocused(table, ChainWalk(table, w, d))
    {
      var cur := Link(table, w, d);
      ghost var fuel := Bound(table);
      while cur.Some? && cur.value != w
        invariant Ends(table, d, w, cur, fuel)
        invariant FirstFocused(table, Walk(table, d, w, cur, fuel)) == FirstFocused(table, ChainWalk(table, w, d))
        decreases fuel
      {
        var x := cur.value;
        FirstFocusedCons(table, x, Walk(table, d, w, Link(table, x, d), fuel - 1));
        if x in table && table[x].isFocused {
          return cur;
        }
        cur := Link(table, x, d);
        fuel := fuel - 1;
      }
      return None;
    }

    method FocusedInChainOrThis(w: WidgetId) returns (r: WidgetId)
      requires WalksEnd(table, w)
      ensures r == FocusedOrThis(table, w)
    {
      var found := FindFocusedAlong(w, Forward);
      if found.Some? {
        return found.value;
      }
      found := FindFocusedAlong(w, Backward);
      if found.Some? {
        return found.value;
      }
      return w;
    }

    /** first_in_focus_chain (Backward) and last_in_focus_chain (Forward). */
    method EndOfChain(w: WidgetId, d: Direction) returns (r: WidgetId)
      requires ChainEnds(table, d, w, Bound(table))
      ensures r == ChainEnd(table, d, w, Bound(table))
    {
      r := w;
      ghost var fuel := Bound(table);
      while Link(table, r, d).Some?
        invariant ChainEnds(table, d, r, fuel)
        invariant ChainEnd(table, d, r, fuel) == ChainEnd(table, d, w, Bound(table))
        decreases fuel
      {
        r := Link(table, r, d).value;
        fuel := fuel - 1;
      }
    }

    /** focus: the focused widget of the chain, if another, is blurred, and
        `w` is focused; "focused" fires unless `w` already was. */
    method Focus(w: WidgetId)
      requires w in table && WalksEnd(table, w)
      modifies this
      ensures FocusedOrThis(old(table), w) == w ==>
        table == WithFocus(old(table), w, true) &&
        signals == old(signals) + if FocusedAt(old(table), w) then [] else [Focused(w)]
      ensures FocusedOrThis(old(table), w) != w ==>
        table == WithFocus(WithFocus(old(table), FocusedOrThis(old(table), w), false), w, true) &&
        signals == old(signals) + [Blurred(FocusedOrThis(old(table), w)), Focused(w)]
    {
      ghost var t0 := table;
      var focused := FocusedInChainOrThis(w);
      if focused == w {
        if !table[w].isFocused {
          table := WithFocus(table, w, true);
          signals := signals + [Focused(w)];
        } else {
          assert table == WithFocus(table, w, true);
        }
        return;
      }
      Blur(focused);
      table := WithFocus(table, w, true);
      assert table == WithFocus(WithFocus(t0, focused, false), w, true);
      signals := signals + [Focused(w)];
    }

    /** The widget focused_in_chain_or_this finds, and the one the focus
        moves to from it in direction `d`. */
    method FindTarget(w: WidgetId, d: Direction) returns (focused: WidgetId, toFocus: WidgetId)
      requires WalksEnd(table, w)
      requires Link(table, FocusedOrThis(table, w), d).None? ==> ChainEnds(table, Reverse(d), w, Bound(table))
      ensures focused == FocusedOrThis(table, w)
      ensures toFocus == FocusTarget(table, w, d)
    {
      focused := FocusedInChainOrThis(w);
      if Link(table, focused, d).Some? {
        toFocus := Link(table, focused, d).value;
      } else {
        toFocus := EndOfChain(w, Reverse(d));
      }
    }

    /** focus_next_in_chain (Forward) and focus_previous_in_chain (Backward).
        Asking for both "none focused" behaviours is a logic error. */
    method FocusInChain(w: WidgetId, d: Direction, noneIfNoneFocused: bool, thisIfNoneFocused: bool)
      returns (r: Result<(), string>)
      requires Valid() && w in table && WalksEnd(table, w)
      requires Link(table, FocusedOrThis(table, w), d).None? ==> ChainEnds(table, Reverse(d), w, Bound(table))
      modifies this
      ensures r.Err? <==> noneIfNoneFocused && thisIfNoneFocused
      ensures r.Err? ==> table == old(table) && signals == old(signals)
      ensures r.Ok? ==> table == Refocused(old(table), FocusedOrThis(old(table), w), FocusTarget(old(table), w, d))
      ensures r.Ok? ==> signals == old(signals) + RefocusSignals(FocusedOrThis(old(table), w), FocusTarget(old(table), w, d))
    {
      if noneIfNoneFocused && thisIfNoneFocused {
        return Err("You can only specify one 'none focused' behaviour");
      }
      ghost var s0, t0 := signals, table;
      var focused, toFocus := FindTarget(w, d);
      if focused == toFocus {
        return Ok(());
      }
      Blur(focused);
      table := WithFocus(table, toFocus, true);
      assert table == Refocused(t0, focused, toFocus);
      signals := signals + [Focused(toFocus)];
      assert signals == s0 + RefocusSignals(focused, toFocus);
      return Ok(());
    }

    /** set_focus_next (Forward) and set_focus_previous (Backward). */
    method SetFocusLink(w: WidgetId, d: Direction, n: Option<WidgetId>)
      requires w in table && (n.Some? ==> n.value in table)
      modifies this
      ensures table == Linked(old(table), w, d, n)
      ensures signals == old(signals)
      ensures old(Valid()) ==> Valid()
    {
      if Valid() {
        LinkedKeepsLinksClosed(table, w, d, n);
      }
      if d == Forward {
        table := table[w := table[w].(next := n)];
      } else {
        table := table[w := table[w].(previous := n)];
      }
      if n.Some? {
        var m := table[n.value];
        if d == Forward {
          table := table[n.value := m.(previous := Some(w))];
        } else {
          table := table[n.value := m.(next := Some(w))];
        }
      }
    }

    /** The destructor, then the widget's removal from the table. */
    method Destroy(w: WidgetId)
      requires w in table
      modifies this
      ensures table == Destroyed(old(table), w)
      ensures signals == old(signals)
      ensures old(Valid()) && old(BackLinked(table, w)) ==> Valid()
    {
      if Valid() && BackLinked(table, w) {
        DestroyedLeavesNoDangling(table, w);
      }
      var s := table[w];
      table := map x | x in table && x != w ::
        table[x].(
          next := if s.previous == Some(x) && table[x].next == Some(w) then None else table[x].next,
          previous := if s.next == Some(x) && table[x].previous == Some(w) then None else table[x].previous);
    }

    /** rebuild: a mesh is built only once the widget is initialized. */
    method Rebuild(w: WidgetId)
      requires w in table
      modifies this
      ensures table == old(table)[w := old(table)[w].(meshBuilds := old(table)[w].meshBuilds + if old(table)[w].initialized then 1 else 0)]
      ensures signals == old(signals)
    {
      if !table[w].initialized {
        return;
      }
      table := table[w := table[w].(meshBuilds := table[w].meshBuilds + 1)];
    }

    /** resize, set_width, set_height, set_text, set_border_width,
        set_border_colour, the colour setters and the source-rectangle
        setters: nothing happens when the value is already set; otherwise
        it is stored and the widget rebuilt. */
    method SetLook(w: WidgetId, s: Setting)
      requires w in table
      modifies this
      ensures table == old(table)[w := AfterSetting(old(table)[w], s)]
      ensures signals == old(signals)
    {
      if Holds(table[w].look, s) {
        return;
      }
      table := table[w := table[w].(look := With(table[w].look, s))];
      Rebuild(w);
    }

    /** set_background_image (Background) and set_foreground_image
        (Foreground). */
    method SetImage(w: WidgetId, layer: Layer, texture: nat, dims: EventListener.Vec2)
      requires w in table
      modifies this
      ensures table == old(table)[w := AfterImage(old(table)[w], layer, texture, dims)]
      ensures signals == old(signals)
    {
      var l := table[w].look;
      if ImageOf(l, layer) == texture {
        return;
      }
      var rect := Rect(EventListener.Zero, dims);
      if layer == Background {
        table := table[w := table[w].(look := l.(backgroundImage := texture))];
        SetLook(w, BackgroundRect(rect));
      } else {
        table := table[w := table[w].(look := l.(foregroundImage := texture))];
        SetLook(w, ForegroundRect(rect));
      }
    }

    /** click fires "clicked". */
    method Click(w: WidgetId)
      modifies this
      ensures table == old(table)
      ensures signals == old(signals) + [Clicked(w)]
    {
      signals := signals + [Clicked(w)];
    }
  }
}
