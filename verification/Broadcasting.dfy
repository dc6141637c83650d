/** The payload objects of a broadcast. The first processor gets the payload itself and every other
    one a clone, but the clone is taken only after the payload has been handed over: by then it may
    have been processed, recycled, and filled anew by the source. And cloning a crawler payload
    drains its raw content, so that the clone after that one goes without. */
module Broadcasting {

  /** What a payload holds: the link it is about, its raw content, and everything else. */
  datatype Body = Body(link: string, text: string, raw: string) {
    /** What cloning leaves. */
    function Drained(): Body { this.(raw := "") }

    /** What recycling leaves. */
    function Reset(): Body { this.(text := "", raw := "") }
  }

  datatype State = State(
    original: Body,        // what the payload object holds now
    gift: Body,            // what is handed to the next processor
    cloning: bool,         // the splitter is about to make the next gift
    recycled: bool,
    handed: seq<Body>)     // what each processor was handed

  datatype Action =
    | Hand                 // the splitter hands the gift to the next processor
    | Clone
    | Recycle              // the payload has reached the sink or was dropped
    | Refill(body: Body)   // the source takes the object for another payload

  ghost predicate Enabled(width: nat, s: State, a: Action) {
    match a
    case Hand => !s.cloning && |s.handed| < width
    case Clone => s.cloning
    case Recycle => s.handed != [] && !s.recycled
    case Refill(_) => s.recycled
  }

  ghost function Apply(s: State, a: Action): State {
    match a
    case Hand => s.(handed := s.handed + [s.gift], cloning := true)
    case Clone => s.(gift := s.original, original := s.original.Drained(), cloning := false)
    case Recycle => s.(original := s.original.Reset(), recycled := true)
    case Refill(body) => s.(original := body, recycled := false)
  }

  /** The splitter has read a payload. */
  ghost function Start(c: Body): State {
    State(c, c, false, false, [])
  }

  datatype Run = Run(states: seq<State>, actions: seq<Action>) {
    ghost predicate Valid(width: nat, c: Body) {
      && |states| == |actions| + 1 && states[0] == Start(c)
      && forall i :: 0 <= i < |actions| ==>
           Enabled(width, states[i], actions[i]) && states[i + 1] == Apply(states[i], actions[i])
    }

    /** Nobody recycles the payload while the splitter needs it. */
    ghost predicate Quiet() {
      forall i :: 0 <= i < |actions| ==> !actions[i].Recycle?
    }

    ghost function Last(): State
      requires |states| > 0
    {
      states[|states| - 1]
    }

    ghost function Then(a: Action): Run
      requires |states| > 0
    {
      Run(states + [Apply(Last(), a)], actions + [a])
    }
  }

  ghost predicate Faithful(s: State, c: Body) {
    forall j :: 0 <= j < |s.handed| ==> s.handed[j] == c
  }

  lemma Extend(r: Run, width: nat, c: Body, a: Action)
    requires r.Valid(width, c) && Enabled(width, r.Last(), a)
    ensures r.Then(a).Valid(width, c) && r.Then(a).Last() == Apply(r.Last(), a)
    ensures r.Quiet() && !a.Recycle? ==> r.Then(a).Quiet()
  {
    hide Enabled, Apply;
  }

  /** The first processor always gets what was read. */
  lemma {:induction false} FirstGift(r: Run, width: nat, c: Body, n: nat)
    requires r.Valid(width, c) && n <= |r.actions|
    ensures var s := r.states[n];
            if s.handed == [] then s.gift == c && !s.recycled && !s.cloning else s.handed[0] == c
  {
    if 0 < n {
      FirstGift(r, width, c, n - 1);
      assert Enabled(width, r.states[n - 1], r.actions[n - 1]);
    }
  }

  lemma {:induction false} HandedSoFar(r: Run, width: nat, c: Body, n: nat)
    requires r.Valid(width, c) && n <= |r.actions|
    ensures |r.states[n].handed| <= width
  {
    if 0 < n {
      HandedSoFar(r, width, c, n - 1);
      assert Enabled(width, r.states[n - 1], r.actions[n - 1]);
    }
  }

  /** What the splitter hands out while nobody interferes: after two processors, drained bodies. */
  ghost predicate QuietOk(s: State, c: Body) {
    var clones := |s.handed| - if s.cloning then 1 else 0;
    && !s.recycled && 0 <= clones
    && s.original == (if clones == 0 then c else c.Drained())
    && s.gift == (if clones <= 1 then c else c.Drained())
    && forall j :: 0 <= j < |s.handed| ==> s.handed[j] == if j <= 1 then c else c.Drained()
  }

  lemma {:induction false} QuietHolds(r: Run, width: nat, c: Body, n: nat)
    requires r.Valid(width, c) && r.Quiet() && n <= |r.actions|
    ensures QuietOk(r.states[n], c)
  {
    if 0 < n {
      QuietHolds(r, width, c, n - 1);
      assert Enabled(width, r.states[n - 1], r.actions[n - 1]) && !r.actions[n - 1].Recycle?;
    }
  }

  /** A run in which the second processor gets the body of another payload. */
  lemma Overtaken(width: nat, c: Body, other: Body) returns (r: Run)
    requires 2 <= width
    ensures r.Valid(width, c) && r.Last().handed == [c, other]
  {
    hide Run.Valid;
    r := Begun(width, c);
    Extend(r, width, c, Hand);
    r := r.Then(Hand);
    Extend(r, width, c, Recycle);
    r := r.Then(Recycle);
    Extend(r, width, c, Refill(other));
    r := r.Then(Refill(other));
    Extend(r, width, c, Clone);
    r := r.Then(Clone);
    Extend(r, width, c, Hand);
    r := r.Then(Hand);
  }

  /** A run in which the second processor gets what recycling has left of the payload: its link only. */
  lemma Blanked(width: nat, c: Body) returns (r: Run)
    requires 2 <= width
    ensures r.Valid(width, c) && r.Last().handed == [c, Body(c.link, "", "")]
  {
    hide Run.Valid;
    r := Begun(width, c);
    Extend(r, width, c, Hand);
    r := r.Then(Hand);
    Extend(r, width, c, Recycle);
    r := r.Then(Recycle);
    Extend(r, width, c, Clone);
    r := r.Then(Clone);
    Extend(r, width, c, Hand);
    r := r.Then(Hand);
  }

  /** A run in which nobody interferes and the third processor goes without raw content. */
  lemma Emptied(width: nat, c: Body) returns (r: Run)
    requires 3 <= width
    ensures r.Valid(width, c) && r.Quiet() && r.Last().handed == [c, c, c.Drained()]
  {
    hide Run.Valid, Run.Quiet;
    r := Begun(width, c);
    Extend(r, width, c, Hand);
    r := r.Then(Hand);
    Extend(r, width, c, Clone);
    r := r.Then(Clone);
    Extend(r, width, c, Hand);
    r := r.Then(Hand);
    Extend(r, width, c, Clone);
    r := r.Then(Clone);
    Extend(r, width, c, Hand);
    r := r.Then(Hand);
  }

  lemma Begun(width: nat, c: Body) returns (r: Run)
    ensures r.Valid(width, c) && r.Quiet() && |r.states| > 0 && r.Last() == Start(c)
  {
    r := Run([Start(c)], []);
  }

  /** Every processor gets what was read, under every schedule, if and only if there is only one. */
  lemma FaithfulIff(width: nat, c: Body)
    ensures (forall r: Run :: r.Valid(width, c) ==> Faithful(r.Last(), c)) <==> width <= 1
  {
    if width <= 1 {
      forall r: Run | r.Valid(width, c) ensures Faithful(r.Last(), c) {
        FirstGift(r, width, c, |r.actions|);
        HandedSoFar(r, width, c, |r.actions|);
      }
    } else {
      var r := Overtaken(width, c, c.(text := c.text + "x"));
      assert r.Last().handed[1] != c;
    }
  }

  /** As long as nobody recycles the payload, every processor gets what was read if and only if
      there are at most two of them or there is no raw content. */
  lemma QuietFaithfulIff(width: nat, c: Body)
    ensures (forall r: Run :: r.Valid(width, c) && r.Quiet() ==> Faithful(r.Last(), c)) <==> width <= 2 || c.raw == ""
  {
    if width <= 2 || c.raw == "" {
      forall r: Run | r.Valid(width, c) && r.Quiet() ensures Faithful(r.Last(), c) {
        QuietHolds(r, width, c, |r.actions|);
        HandedSoFar(r, width, c, |r.actions|);
      }
    } else {
      var r := Emptied(width, c);
      assert r.Last().handed[2] != c;
    }
  }
}
