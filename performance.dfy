/**
 * The performance helpers of the game loop (spaceio/utils/performance.ts): the
 * particle pool, the viewport test and the uniform spatial grid.
 */
module Performance {
  import opened Numerics
  import opened Constants
  import opened SpaceObjects

  /** The values held by one particle, as the loop reads them. */
  datatype ParticleState = ParticleState(x: real, y: real, vx: real, vy: real,
                                         life: real, decay: real, size: real, color: string)

  /** The particle a successful acquisition writes: full life, decay 0.02. */
  function Emitted(x: real, y: real, vx: real, vy: real, color: string, size: real): (p: ParticleState)
    ensures p.life == 1.0 && p.decay == 0.02
    ensures p.x == x && p.y == y && p.vx == vx && p.vy == vy && p.size == size && p.color == color
  {
    ParticleState(x, y, vx, vy, 1.0, 0.02, size, color)
  }

  /** One step of a particle: move by the velocity, damp it by 0.98 and lose one decay of life. */
  function Aged(p: ParticleState): (q: ParticleState)
    ensures q.x == p.x + p.vx && q.y == p.y + p.vy
    ensures q.vx == p.vx * 0.98 && q.vy == p.vy * 0.98
    ensures q.life == p.life - p.decay
    ensures q.decay == p.decay && q.size == p.size && q.color == p.color
  {
    p.(x := p.x + p.vx, y := p.y + p.vy, vx := p.vx * 0.98, vy := p.vy * 0.98, life := p.life - p.decay)
  }

  /** A particle is kept by a step when its aged life is still positive. */
  predicate Survives(p: ParticleState)
  {
    Aged(p).life > 0.0
  }

  /** The live particles after a step: the aged survivors, in their old order. */
  function Survivors(ps: seq<ParticleState>): (r: seq<ParticleState>)
    ensures |r| <= |ps|
    ensures forall k :: 0 <= k < |r| ==> r[k].life > 0.0
  {
    if ps == [] then []
    else
      var last := ps[|ps| - 1];
      Survivors(ps[..|ps| - 1]) + if Survives(last) then [Aged(last)] else []
  }

  /** Stepping a sequence in two parts is stepping each part: the survivors keep their relative order. */
  lemma {:induction false} SurvivorsAppend(a: seq<ParticleState>, b: seq<ParticleState>)
    ensures Survivors(a + b) == Survivors(a) + Survivors(b)
    decreases |b|
  {
    if b == [] {
      assert a + b == a;
    } else {
      var b' := b[..|b| - 1];
      assert (a + b)[..|a + b| - 1] == a + b';
      SurvivorsAppend(a, b');
    }
  }

  /** The survivors of the first n particles, built one slot at a time as the compaction loop visits them. */
  function SurvivorsUpTo(ps: seq<ParticleState>, n: nat): (r: seq<ParticleState>)
    requires n <= |ps|
  {
    if n == 0 then []
    else SurvivorsUpTo(ps, n - 1) + if Survives(ps[n - 1]) then [Aged(ps[n - 1])] else []
  }

  /** No element occurs twice in s. */
  predicate NoRepeats<T(==)>(s: seq<T>)
  {
    forall a, b :: 0 <= a < b < |s| ==> s[a] != s[b]
  }

  /**
   * NoRepeats checked one position at a time from i on: the element at each
   * position differs from every later one. Being recursive, it is unfolded
   * only as far as a proof asks, where NoRepeats relates every pair of
   * positions at once.
   */
  ghost predicate NoRepeatsFrom<T>(s: seq<T>, i: nat)
    decreases |s| - i
  {
    i < |s| ==> (forall j :: i < j < |s| ==> s[i] != s[j]) && NoRepeatsFrom(s, i + 1)
  }

  lemma {:induction false} NoRepeatsFromIff<T>(s: seq<T>, i: nat)
    requires i <= |s|
    ensures NoRepeatsFrom(s, i) <==> forall a, b :: i <= a < b < |s| ==> s[a] != s[b]
    decreases |s| - i
  {
    if i < |s| {
      NoRepeatsFromIff(s, i + 1);
    }
  }

  /** The two ways of saying that s has no repeats agree. */
  lemma NoRepeatsIff<T>(s: seq<T>)
    ensures NoRepeatsFrom(s, 0) <==> NoRepeats(s)
  {
    NoRepeatsFromIff(s, 0);
  }

  /** Swapping two positions keeps a sequence free of repeats. */
  lemma SwapNoRepeats<T>(s: seq<T>, a: int, b: int)
    requires NoRepeats(s) && 0 <= a < |s| && 0 <= b < |s|
    ensures NoRepeats(s[a := s[b]][b := s[a]])
  {
    var t := s[a := s[b]][b := s[a]];
    forall x, y | 0 <= x < y < |t|
      ensures t[x] != t[y]
    {
      var x' := if x == a then b else if x == b then a else x;
      var y' := if y == a then b else if y == b then a else y;
      assert t[x] == s[x'] && t[y] == s[y'] && x' != y';
    }
  }

  /** The aged states of the slots listed in kept. */
  function AgedAt(kept: seq<int>, ps: seq<ParticleState>): (r: seq<ParticleState>)
    requires forall k :: 0 <= k < |kept| ==> 0 <= kept[k] < |ps|
    ensures |r| == |kept| && forall k :: 0 <= k < |kept| ==> r[k] == Aged(ps[kept[k]])
  {
    if kept == [] then [] else AgedAt(kept[..|kept| - 1], ps) + [Aged(ps[kept[|kept| - 1]])]
  }

  lemma {:induction false} SurvivorsUpToPrefix(ps: seq<ParticleState>, n: nat)
    requires n <= |ps|
    ensures SurvivorsUpTo(ps, n) == Survivors(ps[..n])
  {
    if n > 0 {
      SurvivorsUpToPrefix(ps, n - 1);
      assert ps[..n][..n - 1] == ps[..n - 1];
    }
  }

  /**
   * kept lists, in order, the slots among the first i whose particles
   * survive: their aged states are the survivors of the first i particles.
   */
  ghost predicate Tracks(before: seq<ParticleState>, kept: seq<int>, i: int)
  {
    && 0 <= |kept| <= i <= |before|
    && (forall k :: 0 <= k < |kept| ==> 0 <= kept[k] < i && Survives(before[kept[k]]))
    && SurvivorsUpTo(before, i) == AgedAt(kept, before)
  }

  /** Visiting slot i extends kept by i exactly when its particle survives. */
  lemma TracksStep(before: seq<ParticleState>, kept: seq<int>, i: int)
    requires Tracks(before, kept, i) && i < |before|
    ensures Tracks(before, if Survives(before[i]) then kept + [i] else kept, i + 1)
  {
    if Survives(before[i]) {
      assert AgedAt(kept + [i], before) == AgedAt(kept, before) + [Aged(before[i])];
    }
  }

  /**
   * The first |kept| slots hold the particles first at the slots kept lists,
   * and the slots from `from` on hold their first particles.
   */
  ghost predicate Placed<T>(slots: seq<T>, orig: seq<T>, kept: seq<int>, from: int)
  {
    && |slots| == |orig|
    && 0 <= |kept| <= from <= |slots|
    && (forall k :: 0 <= k < |kept| ==> 0 <= kept[k] < |orig| && slots[k] == orig[kept[k]])
    && (forall k :: from <= k < |slots| ==> slots[k] == orig[k])
  }

  /** Swapping the particle at slot i down to slot |kept| records it as kept. */
  lemma PlacedBySwap<T>(slots: seq<T>, orig: seq<T>, kept: seq<int>, i: int)
    requires Placed(slots, orig, kept, i) && i < |slots|
    ensures Placed(slots[|kept| := slots[i]][i := slots[|kept|]], orig, kept + [i], i + 1)
  {
    var w := |kept|;
    var slots' := slots[w := slots[i]][i := slots[w]];
    var kept' := kept + [i];
    forall k | 0 <= k < w + 1
      ensures 0 <= kept'[k] < |orig| && slots'[k] == orig[kept'[k]]
    {
      if k < w {
        assert kept'[k] == kept[k] && slots'[k] == slots[k];
      }
    }
  }

  /**
   * The state of the swapping compaction loop after visiting the first i
   * particles, whose states were before: slots mirrors the array, orig is
   * the array before the loop, kept[k] the slot the k-th survivor came from.
   * The first w slots hold the survivors in order, the slots from i on are
   * untouched, and no particle sits in two slots.
   */
  ghost predicate SwapCompacted<T>(slots: seq<T>, orig: seq<T>, before: seq<ParticleState>,
                                   kept: seq<int>, i: int, w: int)
  {
    && |kept| == w && |before| <= |orig|
    && Tracks(before, kept, i)
    && Placed(slots, orig, kept, i)
    && NoRepeatsFrom(slots, 0)
    && (forall k :: 0 <= k < |slots| ==> slots[k] in orig)
  }

  /** One visit of the swapping loop keeps SwapCompacted. */
  lemma SwapCompactedStep<T>(slots: seq<T>, orig: seq<T>, before: seq<ParticleState>,
                             kept: seq<int>, i: int, w: int)
    requires SwapCompacted(slots, orig, before, kept, i, w) && i < |before|
    ensures Survives(before[i]) ==>
      SwapCompacted(slots[w := slots[i]][i := slots[w]], orig, before, kept + [i], i + 1, w + 1)
    ensures !Survives(before[i]) ==> SwapCompacted(slots, orig, before, kept, i + 1, w)
  {
    TracksStep(before, kept, i);
    if Survives(before[i]) {
      PlacedBySwap(slots, orig, kept, i);
      var slots' := slots[w := slots[i]][i := slots[w]];
      NoRepeatsIff(slots);
      SwapNoRepeats(slots, w, i);
      NoRepeatsIff(slots');
      forall k | 0 <= k < |slots'|
        ensures slots'[k] in orig
      {
        assert slots'[k] == slots[if k == w then i else if k == i then w else k];
      }
    }
  }

  /**
   * The compaction loop as written, followed on references whatever slots
   * share a particle: refs are the live slots in order and st the state of
   * each particle. A visit ages the particle's current state in place, so a
   * particle two slots hold is aged twice, and keeps its reference when the
   * new life is positive. The result is the references kept, in order, and
   * the particles' final states.
   */
  ghost function CopyRun<T>(refs: seq<T>, st: map<T, ParticleState>): (r: (seq<T>, map<T, ParticleState>))
    requires forall k :: 0 <= k < |refs| ==> refs[k] in st
    ensures |r.0| <= |refs| && r.1.Keys == st.Keys
    ensures forall k :: 0 <= k < |r.0| ==> r.0[k] in refs
    ensures forall p :: p in st && p !in refs ==> r.1[p] == st[p]
  {
    if refs == [] then ([], st)
    else
      var init := refs[..|refs| - 1];
      var run := CopyRun(init, st);
      var p := refs[|refs| - 1];
      assert forall k :: 0 <= k < |init| ==> init[k] == refs[k];
      (if Survives(run.1[p]) then run.0 + [p] else run.0, run.1[p := Aged(run.1[p])])
  }

  /**
   * The compaction loop as written after visiting the first i of the slots
   * orig, whose particles' states were st: slots mirrors the array, whose
   * first w entries are the references CopyRun keeps and whose entries
   * from w on are untouched; cur is the particles' states CopyRun has
   * reached.
   */
  ghost predicate Copying<T>(slots: seq<T>, orig: seq<T>, st: map<T, ParticleState>, i: int, w: int,
                             cur: map<T, ParticleState>)
  {
    && |slots| == |orig| && 0 <= w <= i <= |orig|
    && (forall k :: 0 <= k < |orig| ==> orig[k] in st)
    && CopyRun(orig[..i], st) == (slots[..w], cur)
    && (forall k :: w <= k < |orig| ==> slots[k] == orig[k])
  }

  /**
   * One more visit keeps Copying: the particle at slot i is aged in cur
   * and, when it survives, its reference is written to slot w.
   */
  lemma CopyingStep<T>(slots: seq<T>, orig: seq<T>, st: map<T, ParticleState>, i: int, w: int,
                       cur: map<T, ParticleState>)
    requires Copying(slots, orig, st, i, w, cur) && i < |orig|
    ensures orig[i] in cur
    ensures Survives(cur[orig[i]]) ==>
      Copying(slots[w := orig[i]], orig, st, i + 1, w + 1, cur[orig[i] := Aged(cur[orig[i]])])
    ensures !Survives(cur[orig[i]]) ==> Copying(slots, orig, st, i + 1, w, cur[orig[i] := Aged(cur[orig[i]])])
  {
    assert orig[..i + 1][..i] == orig[..i];
    if Survives(cur[orig[i]]) {
      assert slots[w := orig[i]][..w + 1] == slots[..w] + [orig[i]];
    }
  }

  /** Every particle of orig is in the state cur gives it. */
  ghost predicate InStates(orig: seq<Particle>, cur: map<Particle, ParticleState>)
    reads orig
  {
    forall k :: 0 <= k < |orig| ==> orig[k] in cur && orig[k].State() == cur[orig[k]]
  }

  /** What the copying loop leaves in the slots are references it found there. */
  lemma CopyKeepsOwn<T>(slots: seq<T>, orig: seq<T>, st: map<T, ParticleState>, n: int, w: int, cur: map<T, ParticleState>)
    requires |slots| == |orig| && 0 <= w <= |slots| && 0 <= n <= |orig| && forall k :: 0 <= k < |orig| ==> orig[k] in st
    requires CopyRun(orig[..n], st) == (slots[..w], cur) && forall k :: w <= k < |slots| ==> slots[k] == orig[k]
    ensures forall k :: 0 <= k < |slots| ==> slots[k] in orig
  {
    forall k | 0 <= k < |slots| ensures slots[k] in orig {
      if k < w {
        assert slots[..w][k] in orig[..n];
      }
    }
  }

  /** Particles drawn from orig are in the states cur gives orig's. */
  lemma InStatesWithin(orig: seq<Particle>, sub: seq<Particle>, cur: map<Particle, ParticleState>)
    requires InStates(orig, cur) && forall k :: 0 <= k < |sub| ==> sub[k] in orig
    ensures InStates(sub, cur)
  {
    forall k | 0 <= k < |sub| ensures sub[k] in cur && sub[k].State() == cur[sub[k]] {
      var j :| 0 <= j < |orig| && orig[j] == sub[k];
    }
  }

  /** The states st gives the references refs, in order. */
  ghost function StatesOf<T>(refs: seq<T>, st: map<T, ParticleState>): (r: seq<ParticleState>)
    requires forall k :: 0 <= k < |refs| ==> refs[k] in st
    ensures |r| == |refs| && forall k :: 0 <= k < |refs| ==> r[k] == st[refs[k]]
  {
    seq(|refs|, k requires 0 <= k < |refs| => st[refs[k]])
  }

  /**
   * When no two of the visited slots share a particle, the compaction as
   * written keeps exactly the aged survivors in order, each particle aged
   * once.
   */
  lemma {:induction false} CopyRunDistinct<T>(refs: seq<T>, st: map<T, ParticleState>)
    requires (forall k :: 0 <= k < |refs| ==> refs[k] in st) && NoRepeatsFrom(refs, 0)
    ensures StatesOf(CopyRun(refs, st).0, CopyRun(refs, st).1) == Survivors(StatesOf(refs, st))
    ensures forall k :: 0 <= k < |refs| ==> CopyRun(refs, st).1[refs[k]] == Aged(st[refs[k]])
    decreases |refs|
  {
    CopyRunAgesEach(refs, st);
    if refs != [] {
      var init, p := refs[..|refs| - 1], refs[|refs| - 1];
      LastNotInInit(refs);
      CopyRunDistinct(init, st);
      var run := CopyRun(init, st);
      var cur := run.1[p := Aged(run.1[p])];
      StatesOfSame(run.0, run.1, cur);
      SplitLast(refs);
      StatesOfSnoc(init, p, st);
      if Survives(st[p]) {
        StatesOfSnoc(run.0, p, cur);
      }
    }
  }

  /** A non-empty sequence is its front followed by its last element. */
  lemma SplitLast<T>(s: seq<T>)
    requires s != []
    ensures s == s[..|s| - 1] + [s[|s| - 1]]
  {
  }

  /** The states of refs followed by p are those of refs followed by that of p. */
  lemma StatesOfSnoc<T>(refs: seq<T>, p: T, st: map<T, ParticleState>)
    requires (forall k :: 0 <= k < |refs| ==> refs[k] in st) && p in st
    ensures StatesOf(refs + [p], st) == StatesOf(refs, st) + [st[p]]
  {
    assert forall k :: 0 <= k < |refs| ==> (refs + [p])[k] == refs[k];
  }

  /** Two state maps that agree on every reference of refs give refs the same states. */
  lemma StatesOfSame<T>(refs: seq<T>, st: map<T, ParticleState>, st': map<T, ParticleState>)
    requires forall k :: 0 <= k < |refs| ==> refs[k] in st && refs[k] in st' && st[refs[k]] == st'[refs[k]]
    ensures StatesOf(refs, st) == StatesOf(refs, st')
  {
  }

  /** When no two of the visited slots share a particle, the compaction as written ages each of them once. */
  lemma {:induction false} CopyRunAgesEach<T>(refs: seq<T>, st: map<T, ParticleState>)
    requires (forall k :: 0 <= k < |refs| ==> refs[k] in st) && NoRepeatsFrom(refs, 0)
    ensures forall k :: 0 <= k < |refs| ==> CopyRun(refs, st).1[refs[k]] == Aged(st[refs[k]])
    decreases |refs|
  {
    if refs != [] {
      var init := refs[..|refs| - 1];
      LastNotInInit(refs);
      CopyRunAgesEach(init, st);
      forall k | 0 <= k < |refs| ensures CopyRun(refs, st).1[refs[k]] == Aged(st[refs[k]]) {
        if k < |init| {
          assert refs[k] == init[k];
        }
      }
    }
  }

  /** A sequence without repeats, less its last element, has none, and the last element is not among the others. */
  lemma LastNotInInit<T>(refs: seq<T>)
    requires refs != [] && NoRepeatsFrom(refs, 0)
    ensures NoRepeatsFrom(refs[..|refs| - 1], 0) && refs[|refs| - 1] !in refs[..|refs| - 1]
  {
    NoRepeatsFromIff(refs, 0);
    var init := refs[..|refs| - 1];
    NoRepeatsFromIff(init, 0);
    forall k | 0 <= k < |init| ensures init[k] == refs[k] && init[k] != refs[|refs| - 1] {
    }
  }

  /** Two distinct particles of which only the second survives: the second is kept, alone. */
  lemma CopyRunOfPair<T>(p: T, q: T, st: map<T, ParticleState>)
    requires p in st && q in st && p != q && !Survives(st[p]) && Survives(st[q])
    ensures CopyRun([p, q], st).0 == [q]
  {
    assert [p, q][..1] == [p] && [p][..0] == [];
  }

  /**
   * One particle that two slots hold: the first visit ages it and keeps
   * it, the second ages it again and drops it when that spends its life.
   */
  lemma CopyRunTwice<T>(p: T, st: map<T, ParticleState>)
    requires p in st && Survives(st[p]) && !Survives(Aged(st[p]))
    ensures CopyRun([p, p], st) == ([p], st[p := Aged(Aged(st[p]))])
  {
    assert [p, p][..1] == [p] && [p][..0] == [];
    var once := CopyRun([p], st);
    assert CopyRun([], st) == ([], st);
    assert once.0 == [] + [p] == [p] && once.1 == st[p := Aged(st[p])];
    assert once.1[p := Aged(once.1[p])] == st[p := Aged(Aged(st[p]))];
    assert CopyRun([p, p], st) == (once.0, once.1[p := Aged(once.1[p])]);
  }

  /** Of two particles where only the second survives, the survivors are its aged copy. */
  lemma SurvivorsOfPair(ps: seq<ParticleState>)
    requires |ps| == 2 && !Survives(ps[0]) && Survives(ps[1])
    ensures Survivors(ps) == [Aged(ps[1])]
  {
    assert ps[..1] == [ps[0]] && ps[..1][..0] == [];
  }

  /** A particle survives the step exactly when its aged copy is among the survivors. */
  lemma {:induction false} SurvivorsMembers(ps: seq<ParticleState>, q: ParticleState)
    ensures q in Survivors(ps) <==> exists k :: 0 <= k < |ps| && Survives(ps[k]) && q == Aged(ps[k])
  {
    if ps != [] {
      var init := ps[..|ps| - 1];
      SurvivorsMembers(init, q);
      if q in Survivors(init) {
        var k :| 0 <= k < |init| && Survives(init[k]) && q == Aged(init[k]);
        assert ps[k] == init[k];
      }
      if exists k :: 0 <= k < |ps| && Survives(ps[k]) && q == Aged(ps[k]) {
        var k :| 0 <= k < |ps| && Survives(ps[k]) && q == Aged(ps[k]);
        if k < |init| {
          assert init[k] == ps[k];
        }
      }
    }
  }

  /** The number of particles that survive a step. */
  function SurvivorCount(ps: seq<ParticleState>): (n: nat)
    ensures n <= |ps|
  {
    if ps == [] then 0
    else SurvivorCount(ps[..|ps| - 1]) + if Survives(ps[|ps| - 1]) then 1 else 0
  }

  /** activeCount after a step is the number of survivors. */
  lemma {:induction false} SurvivorsLength(ps: seq<ParticleState>)
    ensures |Survivors(ps)| == SurvivorCount(ps)
  {
    if ps != [] {
      SurvivorsLength(ps[..|ps| - 1]);
    }
  }

  /** When every particle survives, the step keeps them all; when none does, the pool empties. */
  lemma {:induction false} SurvivorsExtremes(ps: seq<ParticleState>)
    ensures (forall k :: 0 <= k < |ps| ==> Survives(ps[k])) ==> |Survivors(ps)| == |ps|
    ensures (forall k :: 0 <= k < |ps| ==> !Survives(ps[k])) ==> Survivors(ps) == []
  {
    if ps != [] {
      var init := ps[..|ps| - 1];
      assert forall k :: 0 <= k < |init| ==> init[k] == ps[k];
      SurvivorsExtremes(init);
    }
  }

  /** One Particle of the pool; its fields are updated in place. */
  class Particle {
    var x: real
    var y: real
    var vx: real
    var vy: real
    var life: real
    var decay: real
    var size: real
    var color: string

    function State(): ParticleState
      reads this
    {
      ParticleState(x, y, vx, vy, life, decay, size, color)
    }

    /** The per-particle update of updateParticlePool. */
    method Age()
      modifies this
      ensures State() == Aged(old(State()))
    {
      x := x + vx;
      y := y + vy;
      vx := vx * 0.98;
      vy := vy * 0.98;
      life := life - decay;
    }

    /** An idle slot of a fresh pool. */
    constructor ()
      ensures State() == ParticleState(0.0, 0.0, 0.0, 0.0, 0.0, 0.02, 1.0, "#ffffff")
    {
      x, y, vx, vy := 0.0, 0.0, 0.0, 0.0;
      life, decay, size, color := 0.0, 0.02, 1.0, "#ffffff";
    }
  }

  /**
   * ParticlePool: the slots below activeCount hold the live particles. The
   * array itself is never replaced; its slots are.
   */
  class ParticlePool {
    const particles: array<Particle>
    var activeCount: int
    /** The particles the pool was created with; the slots only ever hold these. */
    ghost const slots: set<Particle>

    /** The pool has its fixed size and at most MAX_PARTICLES live particles. */
    ghost predicate Shape()
      reads this
    {
      particles.Length == PARTICLE_POOL_SIZE && 0 <= activeCount <= MAX_PARTICLES
    }

    /** No two slots share a particle. */
    ghost predicate Distinct()
      reads particles
    {
      NoRepeatsFrom(particles[..], 0)
    }

    /** Every slot holds one of the pool's own particles. */
    ghost predicate Housed()
      reads particles
    {
      forall k :: 0 <= k < particles.Length ==> particles[k] in slots
    }

    ghost predicate Valid()
      reads this, particles
    {
      Shape() && Distinct() && Housed()
    }

    /** Slots filled from a sequence of the pool's own particles are housed. */
    lemma HousedFrom(orig: seq<Particle>)
      requires forall k :: 0 <= k < |orig| ==> orig[k] in slots
      requires forall k :: 0 <= k < particles.Length ==> particles[k] in orig
      ensures Housed()
    {
    }

    /** The states of the live particles, slot by slot. */
    ghost function Live(): (live: seq<ParticleState>)
      requires Shape()
      reads this, particles, particles[..]
      ensures |live| == activeCount
      ensures forall k :: 0 <= k < activeCount ==> live[k] == particles[k].State()
    {
      seq(activeCount, k requires 0 <= k < activeCount <= particles.Length reads this, particles, particles[..] => particles[k].State())
    }

    /** The first |live0| slots hold live particles whose states are live0, in order. */
    ghost predicate Keeps(live0: seq<ParticleState>)
      reads this, particles, particles[..]
    {
      |live0| <= activeCount <= particles.Length && forall k :: 0 <= k < |live0| ==> particles[k].State() == live0[k]
    }

    /** Keeps, stated on the live particles. */
    lemma KeepsLive(live0: seq<ParticleState>)
      requires Shape()
      ensures Keeps(live0) <==> |live0| <= activeCount && Live()[..|live0|] == live0
    {
      if |live0| <= activeCount && Live()[..|live0|] == live0 {
        forall k | 0 <= k < |live0| ensures particles[k].State() == live0[k] {
          assert Live()[..|live0|][k] == Live()[k];
        }
      }
    }

    /** createParticlePool: PARTICLE_POOL_SIZE distinct idle particles, none live. */
    constructor ()
      ensures Valid() && fresh(particles) && activeCount == 0
      ensures forall k :: 0 <= k < particles.Length ==>
        particles[k].State() == ParticleState(0.0, 0.0, 0.0, 0.0, 0.0, 0.02, 1.0, "#ffffff")
    {
      var made: seq<Particle> := [];
      while |made| < PARTICLE_POOL_SIZE
        invariant |made| <= PARTICLE_POOL_SIZE
        invariant forall i, j :: 0 <= i < j < |made| ==> made[i] != made[j]
        invariant forall k :: 0 <= k < |made| ==>
          made[k].State() == ParticleState(0.0, 0.0, 0.0, 0.0, 0.0, 0.02, 1.0, "#ffffff")
      {
        var p := new Particle();
        made := made + [p];
      }
      particles := new Particle[|made|](k requires 0 <= k < |made| => made[k]);
      slots := set k | 0 <= k < |made| :: made[k];
      activeCount := 0;
      NoRepeatsIff(made);
      new;
      assert particles[..] == made;
    }

    /**
     * getParticleFromPool: refused (false, nothing changes) once MAX_PARTICLES
     * are live; otherwise the slot at activeCount is filled and becomes live.
     * Only the particle in that slot is written, so when no two slots share a
     * particle the live particles before it are untouched.
     */
    method Acquire(x: real, y: real, vx: real, vy: real, color: string, size: real) returns (ok: bool)
      requires Shape()
      modifies this`activeCount, particles[activeCount]
      ensures Shape()
      ensures ok <==> old(activeCount) < MAX_PARTICLES
      ensures !ok ==> activeCount == old(activeCount) && unchanged(particles[old(activeCount)])
      ensures ok ==> (activeCount == old(activeCount) + 1
        && particles[old(activeCount)].State() == Emitted(x, y, vx, vy, color, size))
      ensures forall k :: 0 <= k < particles.Length && particles[k] != particles[old(activeCount)] ==>
        particles[k].State() == old(particles[k].State())
      ensures old(Distinct()) && ok ==> Live() == old(Live()) + [Emitted(x, y, vx, vy, color, size)]
      ensures !ok ==> Live() == old(Live())
    {
      NoRepeatsIff(particles[..]);
      if activeCount >= MAX_PARTICLES {
        return false;
      }
      var particle := particles[activeCount];
      particle.x := x;
      particle.y := y;
      particle.vx := vx;
      particle.vy := vy;
      particle.life := 1.0;
      particle.decay := 0.02;
      particle.size := size;
      particle.color := color;
      activeCount := activeCount + 1;
      ok := true;
    }

    /** The first i live particles have been aged and the rest not yet. */
    ghost predicate AgedBelow(orig: seq<Particle>, before: seq<ParticleState>, i: int)
      requires |before| <= |orig|
      reads orig
    {
      forall j :: 0 <= j < |before| ==> orig[j].State() == if j < i then Aged(before[j]) else before[j]
    }

    /**
     * After compaction, the live particles are the aged survivors: slot k
     * holds the particle first at slot kept[k], now aged.
     */
    lemma LiveFromKept(before: seq<ParticleState>, orig: seq<Particle>, kept: seq<int>, from: int)
      requires Shape() && |kept| == activeCount && |before| <= |orig|
      requires Tracks(before, kept, |before|) && Placed(particles[..], orig, kept, from)
      requires AgedBelow(orig, before, |before|)
      ensures Live() == Survivors(before)
    {
      var live := Live();
      var m := AgedAt(kept, before);
      forall k | 0 <= k < activeCount
        ensures live[k] == m[k]
      {
        assert particles[..][k] == particles[k];
        assert live[k] == orig[kept[k]].State();
      }
      assert live == m;
      SurvivorsUpToPrefix(before, |before|);
      assert before[..|before|] == before;
    }

    /**
     * The per-particle update of updateParticlePool at slot i, which still
     * holds the particle it held before the loop.
     */
    method AgeSlot(i: int, ghost orig: seq<Particle>, ghost before: seq<ParticleState>)
      returns (survived: bool)
      requires 0 <= i < |before| <= |orig| && i < particles.Length && particles[i] == orig[i]
      requires NoRepeats(orig) && AgedBelow(orig, before, i)
      modifies orig[i]
      ensures survived <==> Survives(before[i])
      ensures AgedBelow(orig, before, i + 1)
    {
      var particle := particles[i];
      particle.Age();
      survived := particle.life > 0.0;
    }

    /**
     * One visit of the swapping compaction loop at slot i: age the particle
     * there and, when it survives, swap it down to writeIndex. refs mirrors
     * the slots, orig holds the slots as they were before the loop, and kept
     * the slots the survivors so far came from.
     */
    method SwapVisit(i: int, writeIndex: int, ghost refs: seq<Particle>, ghost orig: seq<Particle>,
                     ghost before: seq<ParticleState>, ghost kept: seq<int>)
      returns (w: int, ghost refs': seq<Particle>, ghost kept': seq<int>)
      requires i < |before| && particles[..] == refs
      requires SwapCompacted(refs, orig, before, kept, i, writeIndex)
      requires NoRepeats(orig) && AgedBelow(orig, before, i)
      modifies particles, orig[i]
      ensures particles[..] == refs'
      ensures SwapCompacted(refs', orig, before, kept', i + 1, w) == true
      ensures AgedBelow(orig, before, i + 1) == true
    {
      assert particles[..][i] == particles[i];
      var survived := AgeSlot(i, orig, before);
      SwapCompactedStep(refs, orig, before, kept, i, writeIndex);
      if survived {
        if writeIndex != i {
          particles[writeIndex], particles[i] := particles[i], particles[writeIndex];
        }
        w, refs', kept' := writeIndex + 1, refs[writeIndex := refs[i]][i := refs[writeIndex]], kept + [i];
      } else {
        w, refs', kept' := writeIndex, refs, kept;
      }
    }

    /**
     * The slots of a after a swapping compaction of the particles orig,
     * whose states were before: the first |kept| slots hold the survivors in
     * their old order, every particle is still in exactly one slot and every
     * live particle has been aged.
     */
    ghost predicate Compacted(a: array<Particle>, before: seq<ParticleState>, orig: seq<Particle>, kept: seq<int>)
      reads a, orig
    {
      && |before| <= |orig|
      && Tracks(before, kept, |before|) && Placed(a[..], orig, kept, |before|)
      && NoRepeatsFrom(a[..], 0) && (forall k :: 0 <= k < a.Length ==> a[k] in orig)
      && AgedBelow(orig, before, |before|)
    }

    /**
     * The compaction loop of updateParticlePool with swaps: returns the new
     * number of live particles; kept[k] is the slot the k-th survivor came
     * from.
     */
    method CompactBySwap(ghost before: seq<ParticleState>, ghost orig: seq<Particle>)
      returns (writeIndex: int, ghost kept: seq<int>)
      requires Shape() && activeCount == |before| && particles[..] == orig
      requires NoRepeatsFrom(orig, 0)
      requires AgedBelow(orig, before, 0)
      modifies particles, particles[..]
      ensures |kept| == writeIndex && Compacted(particles, before, orig, kept) == true
    {
      NoRepeatsIff(orig);
      ghost var refs := orig;
      kept := [];
      writeIndex := 0;
      var i, n := 0, activeCount;
      while i < n
        invariant i <= n == |before|
        invariant particles[..] == refs
        invariant SwapCompacted(refs, orig, before, kept, i, writeIndex)
        invariant AgedBelow(orig, before, i)
      {
        writeIndex, refs, kept := SwapVisit(i, writeIndex, refs, orig, before, kept);
        i := i + 1;
      }
      assert forall k :: 0 <= k < particles.Length ==> particles[k] == refs[k];
    }

    /**
     * updateParticlePool with the survivors swapped to the front: every live
     * particle is aged, the survivors are compacted in order, every live
     * particle has life left, and no two slots come to share a particle.
     */
    method Step()
      requires Valid()
      modifies this`activeCount, particles, particles[..]
      ensures Valid()
      ensures Live() == Survivors(old(Live()))
      ensures forall k :: 0 <= k < particles.Length ==> particles[k] in old(particles[..])
    {
      ghost var before := Live();
      ghost var orig := particles[..];
      CompactionReady(before, orig);
      var writeIndex, kept := CompactBySwap(before, orig);
      activeCount := writeIndex;
      SwapCompactionDone(before, orig, kept);
    }

    /** A valid pool is ready for compaction: its slots are distinct and housed, and none is aged yet. */
    lemma CompactionReady(before: seq<ParticleState>, orig: seq<Particle>)
      requires Valid() && before == Live() && orig == particles[..]
      ensures activeCount == |before| <= MAX_PARTICLES && NoRepeatsFrom(orig, 0) && AgedBelow(orig, before, 0)
      ensures forall k :: 0 <= k < |orig| ==> orig[k] in slots
    {
    }

    /**
     * What the swapping compaction leaves once activeCount is its write
     * index: a valid pool whose live particles are the aged survivors, every
     * slot holding one of the particles the slots held before.
     */
    lemma SwapCompactionDone(before: seq<ParticleState>, orig: seq<Particle>, kept: seq<int>)
      requires particles.Length == PARTICLE_POOL_SIZE && |before| <= MAX_PARTICLES
      requires |kept| == activeCount && Compacted(particles, before, orig, kept)
      requires forall k :: 0 <= k < |orig| ==> orig[k] in slots
      ensures Valid() && Live() == Survivors(before)
      ensures forall k :: 0 <= k < particles.Length ==> particles[k] in orig
    {
      LiveFromKept(before, orig, kept, |before|);
      HousedFrom(orig);
    }

    /** The state of every particle the slots hold. */
    ghost function Snapshot(): (st: map<Particle, ParticleState>)
      reads particles, particles[..]
      ensures forall k :: 0 <= k < particles.Length ==> particles[k] in st && st[particles[k]] == particles[k].State()
    {
      map p | p in particles[..] :: p.State()
    }

    /**
     * The body of the compaction loop as written at slot i, which still
     * holds orig[i], when slots may share particles: the particle is aged
     * from its current state cur, every slot holding it sees the new state,
     * and a survivor's reference is copied down to writeIndex.
     */
    method AgeShared(i: int, writeIndex: int, ghost orig: seq<Particle>, ghost cur: map<Particle, ParticleState>)
      returns (survived: bool, ghost cur': map<Particle, ParticleState>)
      requires 0 <= writeIndex <= i < |orig| == particles.Length && particles[i] == orig[i]
      requires InStates(orig, cur)
      modifies particles, orig[i]
      ensures survived <==> Survives(cur[orig[i]])
      ensures cur' == cur[orig[i] := Aged(cur[orig[i]])] && InStates(orig, cur')
      ensures particles[..] == if survived then old(particles[..])[writeIndex := orig[i]] else old(particles[..])
    {
      var particle := particles[i];
      particle.Age();
      cur' := cur[particle := Aged(cur[particle])];
      assert InStates(orig, cur');
      if particle.life > 0.0 {
        survived := true;
        if writeIndex != i {
          particles[writeIndex] := particle;
        }
      } else {
        survived := false;
      }
    }

    /**
     * One visit of the compaction loop as written: age the particle at slot
     * i in place and, when it survives, copy its reference down to
     * writeIndex, so that slot i keeps it too. Slots may share particles.
     */
    method CopyVisit(i: int, writeIndex: int, ghost refs: seq<Particle>, ghost orig: seq<Particle>,
                     ghost st: map<Particle, ParticleState>, ghost cur: map<Particle, ParticleState>)
      returns (w: int, ghost refs': seq<Particle>, ghost cur': map<Particle, ParticleState>)
      requires i < |orig| && particles[..] == refs
      requires Copying(refs, orig, st, i, writeIndex, cur) && InStates(orig, cur)
      modifies particles, orig[i]
      ensures particles[..] == refs'
      ensures Copying(refs', orig, st, i + 1, w, cur') && InStates(orig, cur')
    {
      assert particles[..][i] == particles[i];
      CopyingStep(refs, orig, st, i, writeIndex, cur);
      var survived;
      survived, cur' := AgeShared(i, writeIndex, orig, cur);
      if survived {
        w, refs' := writeIndex + 1, refs[writeIndex := orig[i]];
      } else {
        w, refs' := writeIndex, refs;
      }
    }

    /**
     * The compaction loop of updateParticlePool as written, copying
     * references, on slots orig whose particles' states are st, and the
     * new count of live particles it sets; cur is the particles' final
     * states.
     */
    method CompactByCopy(ghost orig: seq<Particle>, ghost st: map<Particle, ParticleState>)
      returns (ghost cur: map<Particle, ParticleState>)
      requires Shape() && particles[..] == orig
      requires forall k :: 0 <= k < |orig| ==> orig[k] in st && st[orig[k]] == orig[k].State()
      modifies this`activeCount, particles, particles[..]
      ensures 0 <= activeCount <= old(activeCount)
      ensures CopyRun(orig[..old(activeCount)], st) == (particles[..activeCount], cur)
      ensures forall k :: activeCount <= k < particles.Length ==> particles[k] == orig[k]
      ensures InStates(orig, cur)
    {
      var writeIndex;
      writeIndex, cur := 0, st;
      ghost var refs := orig;
      var i, n := 0, activeCount;
      while i < n
        invariant i <= n == activeCount <= |orig|
        invariant particles[..] == refs
        invariant Copying(refs, orig, st, i, writeIndex, cur) && InStates(orig, cur)
      {
        writeIndex, refs, cur := CopyVisit(i, writeIndex, refs, orig, st, cur);
        i := i + 1;
      }
      activeCount := writeIndex;
    }

    /**
     * updateParticlePool as written, on any pool of the right shape,
     * including one whose slots share particles: the slots below the new
     * activeCount hold the references CopyRun keeps, the slots from there on
     * keep theirs, and every particle ends in the state CopyRun gives it.
     * A survivor that moved is therefore also found above activeCount. When
     * no two slots shared a particle, the live particles are the aged
     * survivors.
     */
    method StepAsWritten() returns (ghost run: (seq<Particle>, map<Particle, ParticleState>))
      requires Shape()
      modifies this`activeCount, particles, particles[..]
      ensures Shape() && activeCount <= old(activeCount)
      ensures run == CopyRun(old(particles[..activeCount]), old(Snapshot()))
      ensures particles[..activeCount] == run.0
      ensures forall k :: activeCount <= k < particles.Length ==> particles[k] == old(particles[k])
      ensures forall k :: 0 <= k < particles.Length ==> particles[k] in old(particles[..])
      ensures InStates(old(particles[..]), run.1)
      ensures old(Distinct()) ==> Live() == Survivors(old(Live()))
    {
      ghost var before := Live();
      ghost var orig := particles[..];
      ghost var st := Snapshot();
      ghost var n := activeCount;
      LiveInSnapshot();
      ghost var cur := CompactByCopy(orig, st);
      CopyCompactionDone(orig, st, cur, n, before);
      run := CopyRun(orig[..n], st);
    }

    /**
     * What the compaction as written leaves once activeCount is its write
     * index: the pool keeps its shape, every slot holds one of the
     * particles orig held and, when no two slots shared a particle, the
     * live particles are the aged survivors of before.
     */
    lemma CopyCompactionDone(orig: seq<Particle>, st: map<Particle, ParticleState>, cur: map<Particle, ParticleState>,
                             n: int, before: seq<ParticleState>)
      requires particles.Length == PARTICLE_POOL_SIZE && 0 <= activeCount <= n <= MAX_PARTICLES
      requires |orig| == particles.Length && forall k :: 0 <= k < |orig| ==> orig[k] in st
      requires CopyRun(orig[..n], st) == (particles[..activeCount], cur) && InStates(orig, cur)
      requires forall k :: activeCount <= k < particles.Length ==> particles[k] == orig[k]
      requires before == StatesOf(orig[..n], st)
      ensures Shape()
      ensures forall k :: 0 <= k < particles.Length ==> particles[k] in orig
      ensures NoRepeatsFrom(orig, 0) ==> Live() == Survivors(before)
    {
      CopyKeepsOwn(particles[..], orig, st, n, activeCount, cur);
      assert forall k :: 0 <= k < particles.Length ==> particles[..][k] == particles[k];
      if NoRepeatsFrom(orig, 0) {
        var refs := orig[..n];
        NoRepeatsFromIff(orig, 0);
        NoRepeatsFromIff(refs, 0);
        InStatesWithin(orig, particles[..activeCount], cur);
        CopyLiveDistinct(refs, st, cur, before);
      }
    }

    /**
     * CopyCompactionDone's last promise: when the live slots came from the
     * distinct references refs, they hold the aged survivors.
     */
    lemma CopyLiveDistinct(refs: seq<Particle>, st: map<Particle, ParticleState>, cur: map<Particle, ParticleState>,
                           before: seq<ParticleState>)
      requires Shape() && (forall k :: 0 <= k < |refs| ==> refs[k] in st) && NoRepeatsFrom(refs, 0)
      requires CopyRun(refs, st) == (particles[..activeCount], cur) && StatesOf(refs, st) == before
      requires InStates(particles[..activeCount], cur)
      ensures Live() == Survivors(before)
    {
      CopyRunDistinct(refs, st);
      LiveIsStatesOf(cur);
    }

    /** The live particles read through the snapshot of the slots. */
    lemma LiveInSnapshot()
      requires Shape()
      ensures Live() == StatesOf(particles[..activeCount], Snapshot())
    {
      assert forall k :: 0 <= k < activeCount ==> particles[..activeCount][k] == particles[k];
      LiveIsStatesOf(Snapshot());
    }

    /** The live particles read through a map that holds each one's state. */
    lemma LiveIsStatesOf(cur: map<Particle, ParticleState>)
      requires Shape() && InStates(particles[..activeCount], cur)
      ensures Live() == StatesOf(particles[..activeCount], cur)
    {
      var kept := particles[..activeCount];
      var live := Live();
      forall k | 0 <= k < activeCount ensures live[k] == StatesOf(kept, cur)[k] {
        assert kept[k] == particles[k];
      }
    }

    /**
     * The compaction as written followed by an emission: with two live
     * particles of which only the second survives, the survivor's reference
     * ends up in both slot 0 and slot 1, so the next emission overwrites the
     * survivor and the pool reports the new particle twice.
     */
    method EmitAfterStepAsWritten(x: real, y: real, vx: real, vy: real, color: string, size: real)
      requires Valid() && activeCount == 2
      requires !Survives(particles[0].State()) && Survives(particles[1].State())
      modifies this`activeCount, particles, particles[..]
      ensures activeCount == 2 && particles[0] == particles[1]
      ensures Live() == [Emitted(x, y, vx, vy, color, size), Emitted(x, y, vx, vy, color, size)]
    {
      ghost var p, q := particles[0], particles[1];
      NoRepeatsIff(particles[..]);
      assert particles[..][0] == p && particles[..][1] == q;
      CopyRunOfPair(p, q, Snapshot());
      assert particles[..activeCount] == [p, q];
      ghost var run := StepAsWritten();
      assert particles[..activeCount][0] == q;
      var ok := Acquire(x, y, vx, vy, color, size);
    }

    /**
     * The compaction as written on a pool whose two live slots share one
     * particle, as a previous step can leave them: the shared particle is
     * aged once per slot, survives the first visit and is dropped at the
     * second, so the one slot left live holds a particle whose life is
     * spent.
     */
    method StepAsWrittenAgesTwice()
      requires Shape() && activeCount == 2 && particles[0] == particles[1]
      requires particles[0].decay < particles[0].life <= 2.0 * particles[0].decay
      modifies this`activeCount, particles, particles[..]
      ensures activeCount == 1 && particles[0] == old(particles[0])
      ensures Live() == [Aged(Aged(old(particles[0].State())))] && Live()[0].life <= 0.0
    {
      ghost var p := particles[0];
      ghost var st := Snapshot();
      ghost var orig := particles[..];
      CopyRunTwice(p, st);
      assert particles[..activeCount] == [p, p];
      ghost var run := StepAsWritten();
      assert particles[..activeCount][0] == p && orig[0] == p;
      assert p.State() == Aged(Aged(st[p]));
      assert Live()[0] == p.State();
    }

    /**
     * The corrected compaction followed by an emission: the survivors keep
     * their states and the new particle is appended after them.
     */
    method EmitAfterStep(x: real, y: real, vx: real, vy: real, color: string, size: real) returns (ok: bool)
      requires Valid()
      modifies this`activeCount, particles, particles[..]
      ensures Valid()
      ensures ok <==> |Survivors(old(Live()))| < MAX_PARTICLES
      ensures ok ==> Live() == Survivors(old(Live())) + [Emitted(x, y, vx, vy, color, size)]
      ensures !ok ==> Live() == Survivors(old(Live()))
    {
      Step();
      ok := Acquire(x, y, vx, vy, color, size);
    }
  }

  /**
   * isInViewport: the zoomed screen position of (x, y), relative to the
   * camera, lies inside the canvas widened on every side by the zoomed size
   * plus a 50 pixel margin.
   */
  function IsInViewport(x: real, y: real, size: real, cameraX: real, cameraY: real,
                        canvasWidth: real, canvasHeight: real, zoom: real): bool
  {
    var screenX := (x - cameraX) * zoom;
    var screenY := (y - cameraY) * zoom;
    var scaledSize := size * zoom;
    screenX > -scaledSize - 50.0 && screenX < canvasWidth + scaledSize + 50.0
    && screenY > -scaledSize - 50.0 && screenY < canvasHeight + scaledSize + 50.0
  }

  /**
   * For a positive zoom the viewport test is the world-space test that the
   * point lies in the camera's view widened by size world units and 50
   * screen pixels on every side.
   */
  lemma ViewportInWorld(x: real, y: real, size: real, cameraX: real, cameraY: real,
                        canvasWidth: real, canvasHeight: real, zoom: real)
    requires 0.0 < zoom
    ensures IsInViewport(x, y, size, cameraX, cameraY, canvasWidth, canvasHeight, zoom) <==>
      && cameraX - size - 50.0 / zoom < x < cameraX + (canvasWidth + 50.0) / zoom + size
      && cameraY - size - 50.0 / zoom < y < cameraY + (canvasHeight + 50.0) / zoom + size
  {
    AxisInView(x, cameraX, size, canvasWidth, zoom);
    AxisInView(y, cameraY, size, canvasHeight, zoom);
  }

  /** One axis of the viewport test, moved from screen space to world space by dividing by the zoom. */
  lemma AxisInView(p: real, camera: real, size: real, extent: real, zoom: real)
    requires 0.0 < zoom
    ensures (p - camera) * zoom > -(size * zoom) - 50.0 <==> camera - size - 50.0 / zoom < p
    ensures (p - camera) * zoom < extent + size * zoom + 50.0 <==> p < camera + (extent + 50.0) / zoom + size
  {
    var d := p - camera + size;
    assert (p - camera) * zoom + size * zoom == d * zoom;
    assert 50.0 / zoom * zoom == 50.0;
    ScaleLess(-50.0 / zoom, d, zoom);
    var e := p - camera - size;
    assert (p - camera) * zoom - size * zoom == e * zoom;
    assert (extent + 50.0) / zoom * zoom == extent + 50.0;
    ScaleLess(e, (extent + 50.0) / zoom, zoom);
  }

  /** Multiplying by a positive factor keeps a strict order. */
  lemma ScaleLess(a: real, b: real, z: real)
    requires 0.0 < z
    ensures a < b <==> a * z < b * z
  {
    if a < b {
      assert b * z - a * z == (b - a) * z;
    } else {
      assert a * z - b * z == (a - b) * z;
    }
  }

  /** For a non-negative zoom, growing an object never takes it out of the viewport. */
  lemma LargerStaysInViewport(x: real, y: real, size: real, size': real, cameraX: real, cameraY: real,
                              canvasWidth: real, canvasHeight: real, zoom: real)
    requires 0.0 <= zoom && size <= size'
    requires IsInViewport(x, y, size, cameraX, cameraY, canvasWidth, canvasHeight, zoom)
    ensures IsInViewport(x, y, size', cameraX, cameraY, canvasWidth, canvasHeight, zoom)
  {
    var scaled, scaled' := size * zoom, size' * zoom;
    if 0.0 < zoom {
      ScaleLess(size, size', zoom);
    } else {
      assert scaled == 0.0 == scaled';
    }
    assert -scaled' - 50.0 <= -scaled - 50.0;
    assert canvasWidth + scaled + 50.0 <= canvasWidth + scaled' + 50.0;
    assert canvasHeight + scaled + 50.0 <= canvasHeight + scaled' + 50.0;
  }

}
