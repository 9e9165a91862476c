/**
 * The page script: the `fetch` wrapper that reports AI URLs, the overlay
 * message banks, the CO2-equivalent bands shown on an overlay, the single
 * overlay slot on the page, and the dodge and countdown counters of the
 * annoyance overlay.
 */
module Page {
  import opened Wrappers
  import Background

  // ---------------------------------------------------------------------
  // URL classification
  // ---------------------------------------------------------------------

  /** `marker` occurs in `s` (JavaScript's `s.includes(marker)`). */
  predicate Contains(s: string, marker: string)
    decreases |s|
  {
    if |s| < |marker| then false
    else s[..|marker|] == marker || Contains(s[1..], marker)
  }

  /** `marker` is the window of `s` starting at `i`. */
  predicate OccursAt(s: string, marker: string, i: int) {
    0 <= i && i + |marker| <= |s| && s[i..i + |marker|] == marker
  }

  /** `Contains` agrees with "some window of `s` equals `marker`". */
  lemma {:induction false} ContainsIff(s: string, marker: string)
    ensures Contains(s, marker) <==> exists i :: OccursAt(s, marker, i)
    decreases |s|
  {
    if |s| >= |marker| {
      if s[..|marker|] == marker {
        assert OccursAt(s, marker, 0);
      } else {
        ContainsIff(s[1..], marker);
        if Contains(s[1..], marker) {
          var i :| OccursAt(s[1..], marker, i);
          assert s[i + 1..i + 1 + |marker|] == s[1..][i..i + |marker|];
          assert OccursAt(s, marker, i + 1);
        }
        if exists i :: OccursAt(s, marker, i) {
          var i :| OccursAt(s, marker, i);
          assert i != 0;
          assert s[1..][i - 1..i - 1 + |marker|] == s[i..i + |marker|];
          assert OccursAt(s[1..], marker, i - 1);
        }
      }
    }
  }

  /** The three markers the wrapper looks for. */
  const Markers: seq<string> := ["openai", "anthropic", "generativelanguage"]

  /** A URL is an AI URL when it contains one of the markers. */
  predicate IsAiUrl(url: string) {
    Contains(url, "openai") || Contains(url, "anthropic") || Contains(url, "generativelanguage")
  }

  /** A URL is an AI URL exactly when some marker occurs somewhere in it. */
  lemma IsAiUrlIff(url: string)
    ensures IsAiUrl(url) <==> exists k, i :: 0 <= k < |Markers| && OccursAt(url, Markers[k], i)
  {
    ContainsIff(url, "openai");
    ContainsIff(url, "anthropic");
    ContainsIff(url, "generativelanguage");
    if IsAiUrl(url) {
      if Contains(url, "openai") {
        var i :| OccursAt(url, "openai", i);
        assert OccursAt(url, Markers[0], i);
      } else if Contains(url, "anthropic") {
        var i :| OccursAt(url, "anthropic", i);
        assert OccursAt(url, Markers[1], i);
      } else {
        var i :| OccursAt(url, "generativelanguage", i);
        assert OccursAt(url, Markers[2], i);
      }
    }
    if exists k, i :: 0 <= k < |Markers| && OccursAt(url, Markers[k], i) {
      var k, i :| 0 <= k < |Markers| && OccursAt(url, Markers[k], i);
      assert k == 0 || k == 1 || k == 2;
    }
  }

  // ---------------------------------------------------------------------
  // The fetch wrapper
  // ---------------------------------------------------------------------

  /** How the original `fetch` settled. */
  datatype Settled<R> = Resolved(value: R) | Rejected(reason: string)

  /**
   * The first argument of the call, as far as `args[0]?.toString?.()` sees it:
   * absent or without a `toString` (the URL is then ""), a string, or a
   * `toString` that throws.
   */
  datatype Target = NoText | Text(url: string) | Throwing

  /** What one wrapped call does: its settlement and the reports it sent to the background. */
  datatype FetchRun<R> = FetchRun(result: Settled<R>, reports: seq<string>)

  /**
   * The wrapped `fetch`: await the original call (a rejection propagates and
   * nothing else runs), classify the URL, report an AI URL, and return the
   * original response. An exception while reading the URL or sending the
   * report (`sendFails`) is swallowed.
   */
  function WrappedFetch<R>(original: Settled<R>, target: Target, sendFails: bool): (run: FetchRun<R>)
    ensures run.result == original
    ensures |run.reports| <= 1
    ensures forall u :: u in run.reports ==> IsAiUrl(u)
  {
    match original
    case Rejected(_) => FetchRun(original, [])
    case Resolved(_) =>
      match target
      case Throwing => FetchRun(original, [])
      case NoText => FetchRun(original, [])
      case Text(url) =>
        if IsAiUrl(url) && !sendFails then FetchRun(original, [url]) else FetchRun(original, [])
  }

  /**
   * Exactly one report, carrying the URL, is sent when the original call
   * resolved, the URL could be read and is an AI URL, and sending did not throw.
   */
  lemma ReportsExactlyAiUrls<R>(original: Settled<R>, target: Target, sendFails: bool)
    ensures WrappedFetch(original, target, sendFails).reports ==
      if original.Resolved? && target.Text? && IsAiUrl(target.url) && !sendFails then [target.url] else []
  {
  }

  /** A rejected call reports nothing and rejects with the same reason. */
  lemma RejectionPropagates<R>(reason: string, target: Target, sendFails: bool)
    ensures WrappedFetch<R>(Rejected(reason), target, sendFails) == FetchRun(Rejected(reason), [])
  {
  }

  // ---------------------------------------------------------------------
  // Message banks and the random pick
  // ---------------------------------------------------------------------

  /** The four message banks of the overlays. */
  datatype Bank = Level1Bank | Level2Bank | Level3Bank | AnnoyanceBank

  function BankSize(b: Bank): (n: nat)
    ensures n > 0
  {
    match b
    case Level1Bank => 2
    case Level2Bank => 3
    case Level3Bank => 3
    case AnnoyanceBank => 5
  }

  /**
   * The bank of a guilt-trip overlay for `level` in tenths: level 1 and
   * level 2 have their own banks; every other level uses the level-3 bank.
   */
  function BankFor(level: int): (b: Bank)
    ensures b != AnnoyanceBank
    ensures b == Level1Bank <==> level == 10
    ensures b == Level2Bank <==> level == 20
  {
    if level == 10 then Level1Bank else if level == 20 then Level2Bank else Level3Bank
  }

  /** `Math.floor(r * size)` for a random `r` in [0, 1). */
  function PickIndex(r: real, size: nat): (i: int)
    requires 0.0 <= r < 1.0
    ensures size > 0 ==> 0 <= i < size
    ensures size == 0 ==> i == 0
  {
    var x := r * size as real;
    assert 0.0 <= x;
    assert size > 0 ==> x < size as real by {
      if size > 0 {
        assert r * size as real < 1.0 * size as real;
      }
    }
    x.Floor
  }

  /** The message of a bank picked by `r` is always one of its entries. */
  lemma PickInBank(b: Bank, r: real)
    requires 0.0 <= r < 1.0
    ensures 0 <= PickIndex(r, BankSize(b)) < BankSize(b)
  {
  }

  // ---------------------------------------------------------------------
  // The CO2 equivalent on a guilt-trip overlay
  // ---------------------------------------------------------------------

  /** The four comparisons, in the order of their bands. */
  datatype Equivalent = PhoneCharges | CarDrive | LightbulbHours | Kilograms

  function EquivalentRank(e: Equivalent): nat {
    match e
    case PhoneCharges => 0
    case CarDrive => 1
    case LightbulbHours => 2
    case Kilograms => 3
  }

  /** The band boundaries in centigrams: below 10 g, 50 g, 100 g, and the rest. */
  const EquivalentCuts: seq<nat> := [1000, 5000, 10000]

  /** The comparison for `co2` centigrams (the overlay's `getEquivalent`). */
  function GetEquivalent(co2: nat): Equivalent {
    if co2 < 1000 then PhoneCharges
    else if co2 < 5000 then CarDrive
    else if co2 < 10000 then LightbulbHours
    else Kilograms
  }

  /**
   * `co2` lies in band `k` of `cuts`: at or above every cut before band `k`
   * and below every cut from band `k` on.
   */
  predicate InBand(co2: nat, cuts: seq<nat>, k: nat) {
    && k <= |cuts|
    && (forall j :: 0 <= j < k ==> cuts[j] <= co2)
    && (forall j :: k <= j < |cuts| ==> co2 < cuts[j])
  }

  /** A value lies in at most one band, whatever the cuts. */
  lemma InBandUnique(co2: nat, cuts: seq<nat>, k: nat, m: nat)
    requires InBand(co2, cuts, k) && InBand(co2, cuts, m)
    ensures k == m
  {
    if m < |cuts| {
      assert co2 < cuts[m];
    }
    if k < |cuts| {
      assert co2 < cuts[k];
    }
  }

  /** The overlay's comparison is the band of `co2` among the cuts 10 g, 50 g and 100 g. */
  lemma GetEquivalentBands(co2: nat)
    ensures InBand(co2, EquivalentCuts, EquivalentRank(GetEquivalent(co2)))
  {
  }

  /** More CO2 never moves the comparison to an earlier band. */
  lemma GetEquivalentMonotone(a: nat, b: nat)
    requires a <= b
    ensures EquivalentRank(GetEquivalent(a)) <= EquivalentRank(GetEquivalent(b))
  {
  }

  // ---------------------------------------------------------------------
  // The page body and its single overlay slot
  // ---------------------------------------------------------------------

  /** The element id every overlay carries. */
  const OverlayId: string := "ai-guilt-overlay"

  /** What an element shows: the page's own content, or one of the two overlays. */
  datatype View =
    | PageContent
    | GuiltTrip(level: int, bank: Bank, pick: nat, requests: nat, co2: nat, equivalent: Equivalent)
    | AnnoyanceView(pick: nat, requests: nat, co2: nat)

  /** A node in the body: its identity, its `id` attribute and what it shows. */
  datatype Element = Element(uid: nat, id: string, view: View)

  /** The number of elements carrying `id`. */
  function CountId(body: seq<Element>, id: string): nat {
    if body == [] then 0
    else (if body[0].id == id then 1 else 0) + CountId(body[1..], id)
  }

  /** The elements that do not carry `id`, in order. */
  function Others(body: seq<Element>, id: string): seq<Element> {
    if body == [] then []
    else (if body[0].id == id then [] else [body[0]]) + Others(body[1..], id)
  }

  /** The position of the first element carrying `id` (what `getElementById` finds). */
  function FirstWithId(body: seq<Element>, id: string): (r: Option<nat>)
    ensures r.Some? ==> r.value < |body| && body[r.value].id == id
    ensures r.Some? ==> forall j :: 0 <= j < r.value ==> body[j].id != id
    ensures r.None? ==> forall j :: 0 <= j < |body| ==> body[j].id != id
  {
    if body == [] then None
    else if body[0].id == id then Some(0)
    else match FirstWithId(body[1..], id)
      case None => None
      case Some(i) => Some(i + 1)
  }

  /** `body` with the first element carrying `id` removed, if there is one. */
  function RemoveFirst(body: seq<Element>, id: string): seq<Element> {
    match FirstWithId(body, id)
    case None => body
    case Some(i) => body[..i] + body[i + 1..]
  }

  lemma CountIdAppend(a: seq<Element>, b: seq<Element>, id: string)
    ensures CountId(a + b, id) == CountId(a, id) + CountId(b, id)
    ensures Others(a + b, id) == Others(a, id) + Others(b, id)
  {
    CountAppend(a, b, id);
    OthersAppend(a, b, id);
  }

  lemma {:induction false} CountAppend(a: seq<Element>, b: seq<Element>, id: string)
    ensures CountId(a + b, id) == CountId(a, id) + CountId(b, id)
    decreases |a|
  {
    if a == [] {
      assert a + b == b;
    } else {
      var ab := a + b;
      assert ab[0] == a[0] && ab[1..] == a[1..] + b;
      CountAppend(a[1..], b, id);
    }
  }

  lemma {:induction false} OthersAppend(a: seq<Element>, b: seq<Element>, id: string)
    ensures Others(a + b, id) == Others(a, id) + Others(b, id)
    decreases |a|
  {
    if a == [] {
      assert a + b == b;
    } else {
      var ab := a + b;
      assert ab[0] == a[0] && ab[1..] == a[1..] + b;
      OthersAppend(a[1..], b, id);
    }
  }

  lemma {:induction false} NoneCarry(body: seq<Element>, id: string)
    requires forall j :: 0 <= j < |body| ==> body[j].id != id
    ensures CountId(body, id) == 0 && Others(body, id) == body
    decreases |body|
  {
    if body != [] {
      NoneCarry(body[1..], id);
      assert [body[0]] + body[1..] == body;
    }
  }

  /** A one-element body. */
  lemma Single(e: Element, id: string)
    ensures CountId([e], id) == (if e.id == id then 1 else 0)
    ensures Others([e], id) == if e.id == id then [] else [e]
  {
    assert [e][1..] == [];
  }

  /**
   * Removing the first element carrying `id` takes one such element away and
   * keeps every other element, in order.
   */
  lemma RemoveFirstCounts(body: seq<Element>, id: string)
    ensures CountId(RemoveFirst(body, id), id) == if CountId(body, id) > 0 then CountId(body, id) - 1 else 0
    ensures Others(RemoveFirst(body, id), id) == Others(body, id)
  {
    match FirstWithId(body, id)
    case None =>
      NoneCarry(body, id);
    case Some(i) =>
      RemoveAtCounts(body[..i], body[i], body[i + 1..], id);
      assert body == body[..i] + [body[i]] + body[i + 1..];
  }

  /** Taking out an element carrying `id` after a prefix without any. */
  lemma RemoveAtCounts(pre: seq<Element>, here: Element, post: seq<Element>, id: string)
    requires forall j :: 0 <= j < |pre| ==> pre[j].id != id
    requires here.id == id
    ensures CountId(pre + [here] + post, id) == CountId(post, id) + 1
    ensures CountId(pre + post, id) == CountId(post, id)
    ensures Others(pre + post, id) == Others(pre + [here] + post, id)
  {
    NoneCarry(pre, id);
    CountIdAppend(pre + [here], post, id);
    CountIdAppend(pre, [here], id);
    CountIdAppend(pre, post, id);
    Single(here, id);
  }

  /** Removing an element adds none. */
  lemma RemoveFirstSubset(body: seq<Element>, id: string)
    ensures forall x :: x in RemoveFirst(body, id) ==> x in body
  {
    match FirstWithId(body, id)
    case None =>
    case Some(i) =>
      var pre, post := body[..i], body[i + 1..];
      assert RemoveFirst(body, id) == pre + post;
      forall x | x in pre + post
        ensures x in body
      {
        if x in pre {
          var k :| 0 <= k < |pre| && pre[k] == x;
          assert body[k] == x;
        } else {
          var k :| 0 <= k < |post| && post[k] == x;
          assert body[i + 1 + k] == x;
        }
      }
  }

  /**
   * Replacing the overlay: with at most one overlay before, the body has
   * exactly one afterwards (the new node), and the page's other nodes are
   * kept in order.
   */
  lemma ReplaceOverlay(body: seq<Element>, node: Element)
    requires CountId(body, OverlayId) <= 1 && node.id == OverlayId
    ensures CountId(RemoveFirst(body, OverlayId) + [node], OverlayId) == 1
    ensures Others(RemoveFirst(body, OverlayId) + [node], OverlayId) == Others(body, OverlayId)
    ensures forall x :: x in RemoveFirst(body, OverlayId) + [node] ==> x in body || x == node
  {
    RemoveFirstCounts(body, OverlayId);
    RemoveFirstSubset(body, OverlayId);
    CountIdAppend(RemoveFirst(body, OverlayId), [node], OverlayId);
    Single(node, OverlayId);
  }

  /** The page's document body; `nextUid` hands out identities for new nodes. */
  class Document {
    var body: seq<Element>
    var nextUid: nat

    /** Every node's identity is below `nextUid`, and at most one overlay is on the page. */
    ghost predicate Valid()
      reads this
    {
      (forall x :: x in body ==> x.uid < nextUid) && CountId(body, OverlayId) <= 1
    }

    /** A page with its own content, which may hold one element of the overlay's id. */
    constructor (content: seq<Element>, nextUid: nat)
      requires (forall x :: x in content ==> x.uid < nextUid) && CountId(content, OverlayId) <= 1
      ensures Valid()
      ensures body == content && this.nextUid == nextUid
    {
      body := content;
      this.nextUid := nextUid;
    }

    /**
     * Show an overlay: remove the existing one (the first node with the
     * overlay id), then append the new node, with a new identity, at the end
     * of the body.
     */
    method ShowOverlay(view: View) returns (uid: nat)
      requires Valid()
      modifies this
      ensures Valid()
      ensures uid == old(nextUid) && nextUid == old(nextUid) + 1
      ensures body == RemoveFirst(old(body), OverlayId) + [Element(uid, OverlayId, view)]
      ensures CountId(body, OverlayId) == 1
      ensures Others(body, OverlayId) == Others(old(body), OverlayId)
    {
      var existing := FirstWithId(body, OverlayId);
      uid := nextUid;
      var node := Element(uid, OverlayId, view);
      ReplaceOverlay(body, node);
      if existing.Some? {
        var i := existing.value;
        body := body[..i] + body[i + 1..];
      }
      body := body + [node];
      nextUid := nextUid + 1;
    }

    /** The guilt-trip overlay for `level`, with the message picked by `r`. */
    method ShowGuiltTrip(level: int, requests: nat, co2: nat, r: real) returns (uid: nat)
      requires Valid() && 0.0 <= r < 1.0
      modifies this
      ensures Valid()
      ensures uid == old(nextUid) && nextUid == old(nextUid) + 1
      ensures var bank := BankFor(level);
        body == RemoveFirst(old(body), OverlayId) +
          [Element(uid, OverlayId, GuiltTrip(level, bank, PickIndex(r, BankSize(bank)), requests, co2, GetEquivalent(co2)))]
      ensures CountId(body, OverlayId) == 1
    {
      var bank := BankFor(level);
      var pick := PickIndex(r, BankSize(bank));
      uid := ShowOverlay(GuiltTrip(level, bank, pick, requests, co2, GetEquivalent(co2)));
    }

    /** The annoyance overlay, with the message picked by `r` from its five. */
    method ShowAnnoyance(requests: nat, co2: nat, r: real) returns (uid: nat)
      requires Valid() && 0.0 <= r < 1.0
      modifies this
      ensures Valid()
      ensures uid == old(nextUid) && nextUid == old(nextUid) + 1
      ensures body == RemoveFirst(old(body), OverlayId) +
        [Element(uid, OverlayId, AnnoyanceView(PickIndex(r, BankSize(AnnoyanceBank)), requests, co2))]
      ensures CountId(body, OverlayId) == 1
    {
      var pick := PickIndex(r, BankSize(AnnoyanceBank));
      uid := ShowOverlay(AnnoyanceView(pick, requests, co2));
    }

    /**
     * The page's message listener: a guilt-trip or annoyance message from the
     * background shows its overlay; a notification is not a page message.
     */
    method Receive(e: Background.Effect, r: real) returns (shown: Option<nat>)
      requires Valid() && 0.0 <= r < 1.0
      modifies this
      ensures Valid()
      ensures e.Notify? ==> shown == None && body == old(body) && nextUid == old(nextUid)
      ensures !e.Notify? ==> shown == Some(old(nextUid)) && nextUid == old(nextUid) + 1
      ensures e.ShowGuiltTrip? ==>
        && shown.Some?
        && body == RemoveFirst(old(body), OverlayId) +
             [Element(shown.value, OverlayId, GuiltTrip(e.level, BankFor(e.level),
                      PickIndex(r, BankSize(BankFor(e.level))), e.requests, e.co2, GetEquivalent(e.co2)))]
      ensures e.ShowAnnoyance? ==>
        && shown.Some?
        && body == RemoveFirst(old(body), OverlayId) +
             [Element(shown.value, OverlayId, AnnoyanceView(PickIndex(r, BankSize(AnnoyanceBank)), e.requests, e.co2))]
    {
      match e
      case Notify(_) =>
        shown := None;
      case ShowGuiltTrip(level, requests, co2) =>
        var uid := ShowGuiltTrip(level, requests, co2, r);
        shown := Some(uid);
      case ShowAnnoyance(requests, co2) =>
        var uid := ShowAnnoyance(requests, co2, r);
        shown := Some(uid);
    }

    /**
     * An overlay removes itself (a close button, or the fade-out timer when
     * the node is still attached); a node no longer in the body is left alone.
     */
    method Dismiss(uid: nat)
      requires Valid()
      modifies this
      ensures Valid()
      ensures body == Without(old(body), uid) && nextUid == old(nextUid)
      ensures CountId(body, OverlayId) <= CountId(old(body), OverlayId)
    {
      WithoutCounts(body, uid, OverlayId);
      body := Without(body, uid);
    }
  }

  /** `body` without the node `uid`. */
  function Without(body: seq<Element>, uid: nat): (r: seq<Element>)
    ensures forall x :: x in r ==> x in body && x.uid != uid
    ensures forall x :: x in body && x.uid != uid ==> x in r
  {
    if body == [] then []
    else (if body[0].uid == uid then [] else [body[0]]) + Without(body[1..], uid)
  }

  lemma {:induction false} WithoutCounts(body: seq<Element>, uid: nat, id: string)
    ensures CountId(Without(body, uid), id) <= CountId(body, id)
    decreases |body|
  {
    if body != [] {
      WithoutCounts(body[1..], uid, id);
      var head := if body[0].uid == uid then [] else [body[0]];
      CountIdAppend(head, Without(body[1..], uid), id);
      if head != [] {
        Single(body[0], id);
      }
    }
  }

  // ---------------------------------------------------------------------
  // The annoyance overlay's counters
  // ---------------------------------------------------------------------

  /** The text of the dodging button. */
  datatype Label = Apology | Taunt(index: nat) | ClickMe

  /** The dodging button: moves so far, whether the mouse listener is attached, and its text. */
  datatype Dodger = Dodger(count: nat, listening: bool, caption: Label)

  const StartDodger := Dodger(0, true, Apology)

  /**
   * One mouse move while the listener is attached: below three moves the
   * count rises (whether or not the cursor is `near`, within 100 px) and a
   * near cursor shows taunt `count - 1`; at three the button gives up and
   * the listener is removed. A detached listener sees nothing.
   */
  function Dodge(d: Dodger, near: bool): Dodger {
    if !d.listening then d
    else if d.count < 3 then
      var count := d.count + 1;
      Dodger(count, true, if near then Taunt(count - 1) else d.caption)
    else Dodger(d.count, false, ClickMe)
  }

  /** The moves a sequence of mouse events makes, in order. */
  function DodgeAll(d: Dodger, moves: seq<bool>): Dodger
    decreases |moves|
  {
    if moves == [] then d else DodgeAll(Dodge(d, moves[0]), moves[1..])
  }

  /** What every reachable button state satisfies. */
  predicate DodgerOk(d: Dodger) {
    && d.count <= 3
    && (d.caption.Taunt? ==> d.caption.index < d.count)
    && (d.listening ==> d.caption != ClickMe)
  }

  /** One move keeps the count at most 3 and every taunt index within the three messages. */
  lemma DodgeKeeps(d: Dodger, near: bool)
    requires DodgerOk(d)
    ensures DodgerOk(Dodge(d, near))
    ensures Dodge(d, near).count <= 3 && (Dodge(d, near).caption.Taunt? ==> Dodge(d, near).caption.index < 3)
  {
  }

  /**
   * From the start, `k` mouse moves count min(k, 3), and the listener stays
   * attached exactly for the first three moves: the fourth removes it.
   */
  lemma {:induction false} DodgeAllFromStart(moves: seq<bool>)
    ensures var d := DodgeAll(StartDodger, moves);
      && DodgerOk(d)
      && d.count == (if |moves| < 3 then |moves| else 3)
      && (d.listening <==> |moves| <= 3)
      && (|moves| > 3 ==> d.caption == ClickMe)
  {
    DodgeAllFrom(StartDodger, moves);
  }

  lemma {:induction false} DodgeAllFrom(d: Dodger, moves: seq<bool>)
    requires DodgerOk(d) && d.listening
    ensures var e := DodgeAll(d, moves);
      && DodgerOk(e)
      && e.count == (if d.count + |moves| < 3 then d.count + |moves| else 3)
      && (e.listening <==> d.count + |moves| <= 3)
      && (d.count + |moves| > 3 ==> e.caption == ClickMe)
    decreases |moves|
  {
    if moves != [] {
      var next := Dodge(d, moves[0]);
      DodgeKeeps(d, moves[0]);
      if next.listening {
        DodgeAllFrom(next, moves[1..]);
      } else {
        DetachedStays(next, moves[1..]);
      }
    }
  }

  lemma {:induction false} DetachedStays(d: Dodger, moves: seq<bool>)
    requires !d.listening
    ensures DodgeAll(d, moves) == d
    decreases |moves|
  {
    if moves != [] {
      DetachedStays(d, moves[1..]);
    }
  }

  /** The auto-close countdown: seconds left and whether its interval still runs. */
  datatype Countdown = Countdown(seconds: int, running: bool)

  const StartCountdown := Countdown(15, true)

  /** One interval tick: decrement, and stop the interval once at or below zero. */
  function Tick(c: Countdown): Countdown {
    if !c.running then c
    else
      var s := c.seconds - 1;
      Countdown(s, s > 0)
  }

  function TickAll(c: Countdown, k: nat): Countdown {
    if k == 0 then c else Tick(TickAll(c, k - 1))
  }

  /** After `k` ticks the countdown shows max(15 - k, 0), never negative, and runs exactly while positive. */
  lemma {:induction false} TickAllFromStart(k: nat)
    ensures var c := TickAll(StartCountdown, k);
      && c.seconds == (if k < 15 then 15 - k else 0)
      && c.seconds >= 0
      && (c.running <==> c.seconds > 0)
  {
    if k > 0 {
      TickAllFromStart(k - 1);
    }
  }

  /**
   * The annoyance overlay's running handlers: the dodging button, the
   * countdown, and the node of the overlay they belong to.
   */
  class Annoyance {
    var dodger: Dodger
    var countdown: Countdown
    const overlay: nat

    ghost predicate Valid()
      reads this
    {
      DodgerOk(dodger) && countdown.seconds >= 0 && (countdown.running <==> countdown.seconds > 0)
    }

    /** `makeItAnnoying` on the overlay node `overlay`: listener attached, countdown at 15. */
    constructor (overlay: nat)
      ensures Valid()
      ensures dodger == StartDodger && countdown == StartCountdown && this.overlay == overlay
    {
      dodger := StartDodger;
      countdown := StartCountdown;
      this.overlay := overlay;
    }

    /** A mouse move; `near` is whether the cursor is within 100 px of the button's centre. */
    method MouseMove(near: bool)
      requires Valid()
      modifies this
      ensures Valid()
      ensures dodger == Dodge(old(dodger), near) && countdown == old(countdown)
    {
      DodgeKeeps(dodger, near);
      if dodger.listening {
        if dodger.count < 3 {
          var count := dodger.count + 1;
          var caption := if near then Taunt(count - 1) else dodger.caption;
          dodger := Dodger(count, true, caption);
        } else {
          dodger := dodger.(listening := false, caption := ClickMe);
        }
      }
    }

    /** One second of the countdown interval. */
    method CountdownTick()
      requires Valid()
      modifies this
      ensures Valid()
      ensures countdown == Tick(old(countdown)) && dodger == old(dodger)
    {
      if countdown.running {
        var seconds := countdown.seconds - 1;
        countdown := Countdown(seconds, true);
        if seconds <= 0 {
          countdown := countdown.(running := false);
        }
      }
    }

    /** A click on the dodging button: detach the mouse listener and remove the overlay. */
    method ClickPrimary(page: Document)
      requires Valid() && page.Valid()
      modifies this, page
      ensures Valid() && page.Valid()
      ensures dodger == old(dodger).(listening := false) && countdown == old(countdown)
      ensures page.body == Without(old(page.body), overlay) && page.nextUid == old(page.nextUid)
    {
      dodger := dodger.(listening := false);
      page.Dismiss(overlay);
    }
  }
}
