/**
  Promoting runtime images: any number of promotion runs, other pushes, merges to main and
  deletions of the promotion branch, interleaved.  Commits are numbered in creation order;
  the content of a commit never changes.
 */
module PromotionRuns {
  import opened Options

  type Images = map<string, string>

  datatype Record = Record(upstream: nat, operator: nat, images: Images)

  /** A commit's parents, promotion record, parsed image defaults, and everything else in its tree. */
  datatype Commit = Commit(parents: set<nat>, record: Option<Record>, defaults: Images, rest: nat)

  /** What is fixed: the component of each default, upstream ancestry, and source-pinned tags. */
  datatype Env = Env(components: map<string, string>, ahead: (nat, nat) -> bool, pinned: string -> Option<nat>)

  /** Upstream ancestry is a strict partial order. */
  ghost predicate Order(e: Env)
  {
    && (forall a: nat :: !e.ahead(a, a))
    && (forall a: nat, b: nat, c: nat | e.ahead(a, b) && e.ahead(b, c) :: e.ahead(a, c))
  }

  datatype Run =
    | MainRead(record: Record, main: nat)
    | Decided(record: Record, main: nat, head: Option<nat>, seen: nat)
    | Committed(record: Record, main: nat, head: Option<nat>, seen: nat, commit: nat)
    | Confirmed(record: Record, main: nat, head: Option<nat>, seen: nat, commit: nat)
    | Settled
    | Failed

  /** A successful update of the branch: the head it replaced, and what the run had read. */
  datatype Move = Move(from: Option<nat>, to: nat, read: Option<nat>, main: nat)

  datatype World = World(
    commits: seq<Commit>,
    born: seq<nat>,          // how many moves the branch had made when the commit was created
    promos: set<nat>,        // commits made by promotion runs
    main: nat,
    branch: Option<nat>,
    moves: seq<Move>,
    runs: map<nat, Run>)

  function Start(root: Commit): World { World([root], [0], {}, 0, None, [], map[]) }

  /** `a` is `b` or an ancestor of it. */
  ghost predicate Within(g: seq<Commit>, a: nat, b: nat)
    decreases b
  {
    a == b || (b < |g| && exists p | p in g[b].parents && p < b :: Within(g, a, p))
  }

  predicate SameImages(a: Record, b: Record) { forall n | n in a.images :: n in b.images && a.images[n] == b.images[n] }

  /** Every default a record governs holds the record's image of its component. */
  predicate DefaultsMatch(e: Env, c: Commit)
  {
    c.record.Some? ==> forall n | n in e.components ::
      n in c.defaults && e.components[n] in c.record.value.images &&
      c.defaults[n] == c.record.value.images[e.components[n]]
  }

  predicate Complete(e: Env, r: Record) { r.images.Keys == e.components.Values }

  /** Main had no record yet: the new revision may not be older than a source-pinned default. */
  predicate Bootstrap(e: Env, c: Commit, r: Record)
  {
    c.record.None? ==> forall n | n in e.components ::
      n in c.defaults && e.pinned(c.defaults[n]).Some? && AheadOrSame(e, e.pinned(c.defaults[n]).value, r.upstream)
  }

  predicate AheadOrSame(e: Env, base: nat, head: nat) { e.ahead(base, head) || base == head }

  predicate NotStale(e: Env, prior: Option<Record>, r: Record)
  {
    prior.Some? ==> AheadOrSame(e, prior.value.upstream, r.upstream) &&
                    (prior.value.upstream == r.upstream ==> SameImages(prior.value, r))
  }

  /** What a run decides from main, the branch head it read and the record it was given. */
  function Decide(e: Env, w: World, r: Record, main: nat, head: Option<nat>): Run
    requires main < |w.commits| && (head.Some? ==> head.value < |w.commits|)
  {
    var m := w.commits[main];
    var pending := if head.Some? then w.commits[head.value].record else None;
    if !DefaultsMatch(e, m) || !Bootstrap(e, m, r) then Failed
    else if head.Some? && (pending.None? || !DefaultsMatch(e, w.commits[head.value])) then Failed
    else if !NotStale(e, m.record, r) || !NotStale(e, pending, r) then Failed
    else if m.record.Some? && SameImages(m.record.value, r) then Settled
    else if pending.Some? && SameImages(pending.value, r) then Settled
    else Decided(r, main, head, |w.moves|)
  }

  /** The defaults with every governed one set from the record. */
  function Replaced(e: Env, base: Images, r: Record): Images
    requires Complete(e, r)
  {
    base + map n | n in e.components :: (assert e.components[n] in r.images.Keys; r.images[e.components[n]])
  }

  function Draft(e: Env, w: World, r: Record, main: nat, head: Option<nat>): Commit
    requires main < |w.commits| && Complete(e, r)
  {
    var m := w.commits[main];
    Commit((if head.Some? then {head.value} else {}) + {main}, Some(r), Replaced(e, m.defaults, r), m.rest)
  }

  function Add(w: World, c: Commit): World
  {
    w.(commits := w.commits + [c], born := w.born + [|w.moves|])
  }

  predicate Published(w: World, c: nat) { c in w.promos ==> exists k | 0 <= k < |w.moves| :: w.moves[k].to == c }

  datatype Step =
    | Begin(id: nat, record: Record, onMain: bool)  // whether the upstream revision is on upstream main
    | ReadBranch(id: nat)
    | WriteCommit(id: nat)
    | Reassert(id: nat)
    | Publish(id: nat)
    | Push(commit: Commit)
    | MoveMain(to: nat)
    | DeleteBranch

  ghost predicate Enabled(e: Env, w: World, step: Step)
  {
    match step
    case Begin(id, r, _) => id !in w.runs && Complete(e, r)
    case ReadBranch(id) => id in w.runs && w.runs[id].MainRead?
    case WriteCommit(id) => id in w.runs && w.runs[id].Decided?
    case Reassert(id) => id in w.runs && w.runs[id].Committed?
    case Publish(id) => id in w.runs && w.runs[id].Confirmed?
    case Push(c) => forall p | p in c.parents :: p < |w.commits| && Published(w, p)
    case MoveMain(c) => c < |w.commits| && Published(w, c)
    case DeleteBranch => w.branch.Some?
  }

  /** A non-forced update takes only a descendant of the head; a create takes only an absent branch. */
  ghost predicate Accepted(w: World, head: Option<nat>, commit: nat)
  {
    if head.Some? then w.branch.Some? && Within(w.commits, w.branch.value, commit) else w.branch.None?
  }

  ghost function DoPublish(w: World, id: nat): World
    requires id in w.runs && w.runs[id].Confirmed?
  {
    var r := w.runs[id];
    if !Accepted(w, r.head, r.commit) then w.(runs := w.runs[id := Failed])
    else w.(branch := Some(r.commit), runs := w.runs[id := Settled],
            moves := w.moves + [Move(w.branch, r.commit, r.head, r.main)])
  }

  ghost function Apply(e: Env, w: World, step: Step): World
    requires Inv(e, w) && Enabled(e, w, step)
  {
    match step
    case Begin(id, r, onMain) =>
      w.(runs := w.runs[id := if w.main == r.operator && onMain then MainRead(r, w.main) else Failed])
    case ReadBranch(id) =>
      var r := w.runs[id];
      assert RunOk(e, w, r);
      w.(runs := w.runs[id := Decide(e, w, r.record, r.main, w.branch)])
    case WriteCommit(id) =>
      var r := w.runs[id];
      assert RunOk(e, w, r);
      Add(w, Draft(e, w, r.record, r.main, r.head)).(
        promos := w.promos + {|w.commits|},
        runs := w.runs[id := Committed(r.record, r.main, r.head, r.seen, |w.commits|)])
    case Reassert(id) =>
      var r := w.runs[id];
      w.(runs := w.runs[id := if w.main == r.record.operator
                              then Confirmed(r.record, r.main, r.head, r.seen, r.commit) else Failed])
    case Publish(id) => DoPublish(w, id)
    case Push(c) => Add(w, c)
    case MoveMain(c) => w.(main := c)
    case DeleteBranch => w.(branch := None)
  }

  ghost function Runs(e: Env, root: Commit, steps: seq<Step>): (w: Option<World>)
    requires root.parents == {}
    ensures w.Some? ==> Inv(e, w.value)
  {
    if steps == [] then StartInv(e, root); Some(Start(root))
    else
      var before := Runs(e, root, steps[..|steps| - 1]);
      var step := steps[|steps| - 1];
      if before.Some? && Enabled(e, before.value, step) then
        InvKept(e, before.value, step);
        Some(Apply(e, before.value, step))
      else None
  }

  // ------------------------------------------------------------ the invariant

  /** A published commit, at a move made before the count `k`. */
  ghost predicate PublishedBefore(w: World, c: nat, k: nat)
  {
    exists i | 0 <= i < k && i < |w.moves| :: w.moves[i].to == c
  }

  /** Promotion commits among a commit's parents were published before the commit was created. */
  ghost predicate GraphAt(w: World, c: nat)
    requires c < |w.commits| == |w.born|
  {
    && w.born[c] <= |w.moves|
    && forall p | p in w.commits[c].parents ::
         p < c && w.born[p] <= w.born[c] && (p in w.promos ==> PublishedBefore(w, p, w.born[c]))
  }

  ghost predicate InvGraph(w: World)
  {
    && |w.born| == |w.commits|
    && w.main < |w.commits| && Published(w, w.main)
    && (forall c | c in w.promos :: c < |w.commits|)
    && (forall c: nat | c < |w.commits| :: GraphAt(w, c))
  }

  ghost predicate InvMoves(w: World)
    requires InvGraph(w)
  {
    && (forall k | 0 <= k < |w.moves| :: w.moves[k].to in w.promos && w.born[w.moves[k].to] <= k)
    && (forall i, j | 0 <= i < j < |w.moves| :: w.moves[i].to != w.moves[j].to)
    && (w.branch.Some? ==> |w.moves| > 0 && w.moves[|w.moves| - 1].to == w.branch.value)
  }

  /** What a run read stays true of the moves made until then. */
  ghost predicate ReadOk(w: World, main: nat, head: Option<nat>, seen: nat)
    requires InvGraph(w)
  {
    && seen <= |w.moves| && main < |w.commits| && w.born[main] <= seen
    && (main in w.promos ==> PublishedBefore(w, main, seen))
    && (head.Some? ==> seen > 0 && w.moves[seen - 1].to == head.value && head.value in w.promos)
  }

  ghost predicate Drafted(e: Env, w: World, r: Run)
    requires r.Committed? || r.Confirmed?
    requires r.main < |w.commits| && Complete(e, r.record)
  {
    r.commit < |w.commits| && w.commits[r.commit] == Draft(e, w, r.record, r.main, r.head) &&
    r.commit in w.promos && forall k | 0 <= k < |w.moves| :: w.moves[k].to != r.commit
  }

  /** The record is strictly newer than main's, and than the pending one of the head read. */
  ghost predicate Newer(e: Env, w: World, r: Record, c: nat)
  {
    c < |w.commits| && (w.commits[c].record.Some? ==> e.ahead(w.commits[c].record.value.upstream, r.upstream))
  }

  ghost predicate RunOk(e: Env, w: World, r: Run)
    requires InvGraph(w)
  {
    match r
    case MainRead(rec, m) => m < |w.commits| && Published(w, m) && Complete(e, rec) && m == rec.operator
    case Decided(rec, m, h, n) =>
      ReadOk(w, m, h, n) && Complete(e, rec) && Newer(e, w, rec, m) && (h.Some? ==> Newer(e, w, rec, h.value)) &&
      m == rec.operator
    case Committed(rec, m, h, n, c) =>
      ReadOk(w, m, h, n) && Complete(e, rec) && Newer(e, w, rec, m) && (h.Some? ==> Newer(e, w, rec, h.value)) &&
      m == rec.operator && Drafted(e, w, r)
    case Confirmed(rec, m, h, n, c) =>
      ReadOk(w, m, h, n) && Complete(e, rec) && Newer(e, w, rec, m) && (h.Some? ==> Newer(e, w, rec, h.value)) &&
      m == rec.operator && Drafted(e, w, r)
    case _ => true
  }

  predicate Holds(r: Run, c: nat) { (r.Committed? || r.Confirmed?) && r.commit == c }

  ghost predicate InvRuns(e: Env, w: World)
    requires InvGraph(w)
  {
    && (forall id | id in w.runs :: RunOk(e, w, w.runs[id]))
    && (forall i, j, c | i in w.runs && j in w.runs && Holds(w.runs[i], c) && Holds(w.runs[j], c) :: i == j)
  }

  /** What every update of the branch achieved. */
  ghost predicate MoveOk(e: Env, w: World, k: nat)
    requires InvGraph(w) && InvMoves(w) && k < |w.moves|
  {
    var m := w.moves[k];
    var c := w.commits[m.to];
    && m.from == m.read
    && m.main < |w.commits| && c.record.Some? && c.record.value.operator == m.main && m.main in c.parents
    && (m.from.Some? ==> k > 0 && w.moves[k - 1].to == m.from.value && m.from.value in c.parents)
    && DefaultsMatch(e, c) && c.rest == w.commits[m.main].rest
    && (forall n | n in c.defaults && n !in e.components ::
          n in w.commits[m.main].defaults && c.defaults[n] == w.commits[m.main].defaults[n])
    && Newer(e, w, c.record.value, m.main)
    && (m.from.Some? ==> w.commits[m.from.value].record.Some? && Newer(e, w, c.record.value, m.from.value))
  }

  ghost predicate Inv(e: Env, w: World)
  {
    && InvGraph(w) && InvMoves(w) && InvRuns(e, w)
    && (forall k: nat | k < |w.moves| :: MoveOk(e, w, k))
  }

  lemma StartInv(e: Env, root: Commit)
    requires root.parents == {}
    ensures Inv(e, Start(root))
  {
    assert GraphAt(Start(root), 0);
  }

  // ------------------------------------------------------------ growing

  /** Commits and moves are only ever added; what was there keeps its meaning. */
  ghost predicate Grows(w: World, w': World)
  {
    && w.commits <= w'.commits && w.born <= w'.born && w.moves <= w'.moves && w.promos <= w'.promos
    && forall c | c in w'.promos && c !in w.promos :: c >= |w.commits|
  }

  lemma StillPublished(w: World, w': World, c: nat, k: nat)
    requires Grows(w, w') && PublishedBefore(w, c, k)
    ensures PublishedBefore(w', c, k)
  {
    var i :| 0 <= i < k && i < |w.moves| && w.moves[i].to == c;
    assert w'.moves[i].to == c;
  }

  lemma GraphGrows(w: World, w': World, c: nat)
    requires InvGraph(w) && Grows(w, w') && c < |w.commits| && |w'.commits| == |w'.born|
    ensures GraphAt(w', c)
  {
    assert GraphAt(w, c);
    forall p | p in w'.commits[c].parents
      ensures p < c && w'.born[p] <= w'.born[c] && (p in w'.promos ==> PublishedBefore(w', p, w'.born[c]))
    {
      if p in w'.promos { StillPublished(w, w', p, w.born[c]); }
    }
  }

  lemma MainGrows(w: World, w': World, c: nat)
    requires InvGraph(w) && Grows(w, w') && c < |w.commits| && Published(w, c)
    ensures Published(w', c)
  {
    if c in w'.promos {
      var i :| 0 <= i < |w.moves| && w.moves[i].to == c;
      assert w'.moves[i].to == c;
    }
  }

  lemma ReadGrows(w: World, w': World, main: nat, head: Option<nat>, seen: nat)
    requires InvGraph(w) && InvGraph(w') && Grows(w, w') && ReadOk(w, main, head, seen)
    ensures ReadOk(w', main, head, seen)
  {
    if main in w'.promos { StillPublished(w, w', main, seen); }
  }

  lemma RunGrows(e: Env, w: World, w': World, r: Run)
    requires InvGraph(w) && InvGraph(w') && InvMoves(w) && Grows(w, w') && RunOk(e, w, r)
    requires r.Committed? || r.Confirmed? ==> forall k | |w.moves| <= k < |w'.moves| :: w'.moves[k].to != r.commit
    ensures RunOk(e, w', r)
  {
    match r
    case MainRead(rec, m) => MainGrows(w, w', m);
    case Decided(rec, m, h, n) => ReadGrows(w, w', m, h, n);
    case Committed(rec, m, h, n, c) => ReadGrows(w, w', m, h, n);
    case Confirmed(rec, m, h, n, c) => ReadGrows(w, w', m, h, n);
    case _ =>
  }

  lemma MoveGrows(e: Env, w: World, w': World, k: nat)
    requires InvGraph(w) && InvGraph(w') && InvMoves(w) && InvMoves(w') && Grows(w, w')
    requires k < |w.moves| && MoveOk(e, w, k)
    ensures MoveOk(e, w', k)
  {
    assert w'.moves[k] == w.moves[k] && w.moves[k].to in w.promos;
  }

  // ------------------------------------------------------------ the race

  /** A promotion commit in a commit's history was published before that commit was created. */
  lemma {:induction false} PromoAncestor(w: World, a: nat, c: nat)
    requires InvGraph(w) && c < |w.commits| && a in w.promos && a != c && Within(w.commits, a, c)
    ensures PublishedBefore(w, a, w.born[c])
    decreases c
  {
    assert GraphAt(w, c);
    var p :| p in w.commits[c].parents && p < c && Within(w.commits, a, p);
    if a != p {
      PromoAncestor(w, a, p);
      var i :| 0 <= i < w.born[p] && i < |w.moves| && w.moves[i].to == a;
    }
  }

  /** A non-forced update goes through only while the branch is still at the head the run read. */
  lemma UpdateOnlyFromHeadRead(e: Env, w: World, id: nat)
    requires Inv(e, w) && id in w.runs && w.runs[id].Confirmed? && Accepted(w, w.runs[id].head, w.runs[id].commit)
    ensures w.branch == w.runs[id].head
  {
    var r := w.runs[id];
    assert RunOk(e, w, r);
    if r.head.Some? {
      var last := |w.moves| - 1;
      var cur := w.branch.value;
      assert w.moves[last].to == cur;
      var p :| p in w.commits[r.commit].parents && p < r.commit && Within(w.commits, cur, p);
      if cur != p { PromoAncestor(w, cur, p); }
      assert PublishedBefore(w, cur, r.seen);
      var i :| 0 <= i < r.seen && i < |w.moves| && w.moves[i].to == cur;
      assert i == last;
    }
  }

  // ------------------------------------------------------------ each step

  lemma QuietKept(e: Env, w: World, w': World, id: nat)
    requires Inv(e, w) && id in w'.runs && w' == w.(runs := w.runs[id := w'.runs[id]])
    requires RunOk(e, w, w'.runs[id])
    requires forall c | Holds(w'.runs[id], c) :: id in w.runs && Holds(w.runs[id], c)
    ensures Inv(e, w')
  {
    assert Grows(w, w');
    forall c: nat | c < |w'.commits| ensures GraphAt(w', c) { GraphGrows(w, w', c); }
    forall i | i in w'.runs ensures RunOk(e, w', w'.runs[i]) {
      if i != id {
        assert RunOk(e, w, w.runs[i]); RunGrows(e, w, w', w.runs[i]);
      } else {
        RunGrows(e, w, w', w'.runs[i]);
      }
    }
    forall k: nat | k < |w'.moves| ensures MoveOk(e, w', k) { MoveGrows(e, w, w', k); }
  }

  lemma RefKept(e: Env, w: World, w': World)
    requires Inv(e, w) && w' == w.(main := w'.main, branch := w'.branch)
    requires w'.main < |w.commits| && Published(w, w'.main) && (w'.branch == w.branch || w'.branch.None?)
    ensures Inv(e, w')
  {
    assert Grows(w, w');
    forall c: nat | c < |w'.commits| ensures GraphAt(w', c) { GraphGrows(w, w', c); }
    forall i | i in w'.runs ensures RunOk(e, w', w'.runs[i]) {
      assert RunOk(e, w, w.runs[i]); RunGrows(e, w, w', w.runs[i]);
    }
    forall k: nat | k < |w'.moves| ensures MoveOk(e, w', k) { MoveGrows(e, w, w', k); }
  }

  lemma DecideKept(e: Env, w: World, id: nat)
    requires Inv(e, w) && id in w.runs && w.runs[id].MainRead?
    ensures Inv(e, Apply(e, w, ReadBranch(id)))
  {
    var r := w.runs[id];
    assert RunOk(e, w, r);
    var d := Decide(e, w, r.record, r.main, w.branch);
    assert GraphAt(w, r.main);
    if d.Decided? {
      if r.main in w.promos { assert PublishedBefore(w, r.main, |w.moves|); }
    }
    QuietKept(e, w, Apply(e, w, ReadBranch(id)), id);
  }

  /** Adding a commit whose parents are published, or were read by the run that makes it. */
  lemma AddKept(w: World, w': World, c: Commit)
    requires InvGraph(w) && InvMoves(w) && Grows(w, w') && w'.main == w.main && w'.branch == w.branch
    requires w'.commits == w.commits + [c] && w'.born == w.born + [|w.moves|] && w'.moves == w.moves
    requires w'.promos <= w.promos + {|w.commits|}
    requires forall p | p in c.parents :: p < |w.commits| && (p in w.promos ==> PublishedBefore(w, p, |w.moves|))
    ensures InvGraph(w') && InvMoves(w')
  {
    forall i: nat | i < |w'.commits| ensures GraphAt(w', i) {
      if i < |w.commits| { GraphGrows(w, w', i); }
      else {
        forall p | p in c.parents ensures p in w'.promos ==> PublishedBefore(w', p, |w.moves|) {
          if p in w'.promos { StillPublished(w, w', p, |w.moves|); }
        }
        forall p | p in c.parents ensures w'.born[p] <= |w.moves| { assert GraphAt(w, p); }
      }
    }
    MainGrows(w, w', w.main);
    forall k | 0 <= k < |w'.moves| ensures w'.moves[k].to in w'.promos && w'.born[w'.moves[k].to] <= k {
      assert w.moves[k].to in w.promos;
    }
  }

  lemma PushKept(e: Env, w: World, c: Commit)
    requires Inv(e, w) && Enabled(e, w, Push(c))
    ensures Inv(e, Apply(e, w, Push(c)))
  {
    var w' := Add(w, c);
    assert Grows(w, w');
    forall p | p in c.parents && p in w.promos ensures PublishedBefore(w, p, |w.moves|) {}
    AddKept(w, w', c);
    forall i | i in w'.runs ensures RunOk(e, w', w'.runs[i]) {
      assert RunOk(e, w, w.runs[i]); RunGrows(e, w, w', w.runs[i]);
    }
    forall k: nat | k < |w'.moves| ensures MoveOk(e, w', k) { MoveGrows(e, w, w', k); }
  }

  lemma WriteKept(e: Env, w: World, id: nat)
    requires Inv(e, w) && id in w.runs && w.runs[id].Decided?
    ensures Inv(e, Apply(e, w, WriteCommit(id)))
  {
    var w' := Apply(e, w, WriteCommit(id));
    var r := w.runs[id];
    assert RunOk(e, w, r);
    var c := Draft(e, w, r.record, r.main, r.head);
    assert Grows(w, w');
    forall p | p in c.parents && p in w.promos ensures PublishedBefore(w, p, |w.moves|) {
      if p == r.main { var i :| 0 <= i < r.seen && i < |w.moves| && w.moves[i].to == p; }
      else { assert w.moves[r.seen - 1].to == p; }
    }
    AddKept(w, w', c);
    assert RunOk(e, w', w'.runs[id]) by {
      ReadGrows(w, w', r.main, r.head, r.seen);
      forall k | 0 <= k < |w'.moves| ensures w'.moves[k].to != |w.commits| { assert w.moves[k].to in w.promos; }
    }
    forall i | i in w'.runs ensures RunOk(e, w', w'.runs[i]) && (i != id ==> !Holds(w'.runs[i], |w.commits|)) {
      if i != id { assert RunOk(e, w, w.runs[i]); RunGrows(e, w, w', w.runs[i]); }
    }
    forall k: nat | k < |w'.moves| ensures MoveOk(e, w', k) { MoveGrows(e, w, w', k); }
  }

  lemma PublishGraph(e: Env, w: World, id: nat)
    requires Inv(e, w) && id in w.runs && w.runs[id].Confirmed? && Accepted(w, w.runs[id].head, w.runs[id].commit)
    ensures var w' := DoPublish(w, id); Grows(w, w') && InvGraph(w') && InvMoves(w')
  {
    var w' := DoPublish(w, id);
    var r := w.runs[id];
    assert RunOk(e, w, r);
    assert Grows(w, w');
    forall c: nat | c < |w'.commits| ensures GraphAt(w', c) { GraphGrows(w, w', c); }
    MainGrows(w, w', w.main);
    assert GraphAt(w, r.commit);
  }

  lemma PublishMove(e: Env, w: World, id: nat)
    requires Inv(e, w) && id in w.runs && w.runs[id].Confirmed? && Accepted(w, w.runs[id].head, w.runs[id].commit)
    requires var w' := DoPublish(w, id); InvGraph(w') && InvMoves(w')
    ensures MoveOk(e, DoPublish(w, id), |w.moves|)
  {
    var w' := DoPublish(w, id);
    var r := w.runs[id];
    assert RunOk(e, w, r);
    UpdateOnlyFromHeadRead(e, w, id);
    var c := w'.commits[r.commit];
    assert DefaultsMatch(e, c) by {
      forall n | n in e.components ensures e.components[n] in r.record.images {
        assert e.components[n] in e.components.Values;
      }
    }
    if w.branch.Some? { assert MoveOk(e, w, |w.moves| - 1); }
  }

  lemma PublishKept(e: Env, w: World, id: nat)
    requires Inv(e, w) && id in w.runs && w.runs[id].Confirmed?
    ensures Inv(e, DoPublish(w, id))
  {
    var r := w.runs[id];
    var w' := DoPublish(w, id);
    if Accepted(w, r.head, r.commit) {
      PublishGraph(e, w, id);
      PublishMove(e, w, id);
      forall i | i in w'.runs ensures RunOk(e, w', w'.runs[i]) {
        if i != id {
          assert RunOk(e, w, w.runs[i]);
          assert Holds(r, r.commit) && !Holds(w.runs[i], r.commit);
          RunGrows(e, w, w', w.runs[i]);
        }
      }
      forall k: nat | k < |w'.moves| ensures MoveOk(e, w', k) { if k < |w.moves| { MoveGrows(e, w, w', k); } }
    } else {
      QuietKept(e, w, w', id);
    }
  }

  lemma InvKept(e: Env, w: World, step: Step)
    requires Inv(e, w) && Enabled(e, w, step)
    ensures Inv(e, Apply(e, w, step))
  {
    var w' := Apply(e, w, step);
    match step
    case Begin(id, _, _) => QuietKept(e, w, w', id);
    case ReadBranch(id) => DecideKept(e, w, id);
    case WriteCommit(id) => WriteKept(e, w, id);
    case Reassert(id) => assert RunOk(e, w, w.runs[id]); QuietKept(e, w, w', id);
    case Publish(id) => PublishKept(e, w, id);
    case Push(c) => PushKept(e, w, c);
    case MoveMain(_) => RefKept(e, w, w');
    case DeleteBranch => RefKept(e, w, w');
  }

  // ------------------------------------------------------------ whole runs

  /** The record a move of the branch published. */
  ghost function RecordAt(e: Env, w: World, k: nat): Record
    requires Inv(e, w) && k < |w.moves|
  {
    assert MoveOk(e, w, k);
    w.commits[w.moves[k].to].record.value
  }

  /** Between two deletions, every head's upstream revision is ahead of every earlier head's. */
  lemma {:induction false} RevisionsOnlyMoveForward(e: Env, w: World, i: nat, j: nat)
    requires Order(e) && Inv(e, w) && i < j < |w.moves|
    requires forall k | i < k <= j :: w.moves[k].from.Some?
    ensures e.ahead(RecordAt(e, w, i).upstream, RecordAt(e, w, j).upstream)
    decreases j
  {
    assert MoveOk(e, w, j);
    if i < j - 1 { RevisionsOnlyMoveForward(e, w, i, j - 1); }
  }

  ghost predicate Undeleted(w: World)
  {
    (|w.moves| > 0 ==> w.branch.Some?) && forall k | 0 < k < |w.moves| :: w.moves[k].from.Some?
  }

  lemma UndeletedKept(e: Env, w: World, step: Step)
    requires Inv(e, w) && Enabled(e, w, step) && Undeleted(w) && step != DeleteBranch
    ensures Undeleted(Apply(e, w, step))
  {
    var w' := Apply(e, w, step);
    if !step.Publish? { assert w'.moves == w.moves && w'.branch == w.branch; }
  }

  /** Without deletions only the first move creates the branch. */
  lemma {:induction false} NeverRecreated(e: Env, root: Commit, steps: seq<Step>)
    requires root.parents == {} && Runs(e, root, steps).Some? && DeleteBranch !in steps
    ensures Undeleted(Runs(e, root, steps).value)
  {
    if steps != [] {
      NeverRecreated(e, root, steps[..|steps| - 1]);
      UndeletedKept(e, Runs(e, root, steps[..|steps| - 1]).value, steps[|steps| - 1]);
    }
  }

  /** No interleaving of promotion runs rolls the branch back or gives one revision two image sets. */
  lemma NoRollback(e: Env, root: Commit, steps: seq<Step>, i: nat, j: nat)
    requires Order(e) && root.parents == {} && Runs(e, root, steps).Some? && DeleteBranch !in steps
    requires i < j < |Runs(e, root, steps).value.moves|
    ensures var w := Runs(e, root, steps).value;
            e.ahead(RecordAt(e, w, i).upstream, RecordAt(e, w, j).upstream) &&
            RecordAt(e, w, i).upstream != RecordAt(e, w, j).upstream
  {
    NeverRecreated(e, root, steps);
    RevisionsOnlyMoveForward(e, Runs(e, root, steps).value, i, j);
  }
}
