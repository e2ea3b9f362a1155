/**
 * What the search of src/search.c computes, as functions over a game
 * tree: the plain negamax value, the fail-hard alpha-beta search with its
 * transposition-table traffic, the root loop and the move ordering; and
 * what is proved about them.
 *
 * A node of the tree stands for a position: its Zobrist key, the side to
 * move, what eval_position returns there, and the moves generated there,
 * each with the position making it leads to.  Descending to a child
 * stands for position_makeMove and coming back for position_undoMove,
 * which restores the position (MakeMoveInverse.MakeUndoInverse).
 */
module SearchSpec {
  import opened Wrappers
  import opened Pieces
  import opened Moves
  import opened TT
  import Eval

  const MAX_DEPTH: int := 32
  const INFINITY: int := Eval.INFINITY

  /** A position as the search sees it. */
  datatype Tree = Tree(hash: bv64, side: int, eval: int, branches: seq<Branch>)

  /** A generated move and the position it leads to. */
  datatype Branch = Branch(move: Move, child: Tree)

  function Max(x: int, y: int): int {
    if x >= y then x else y
  }

  /** The score fail-hard alpha-beta reports for a true value `x` and window [lo, hi]. */
  function Clamp(x: int, lo: int, hi: int): (r: int)
    requires lo <= hi
    ensures lo <= r <= hi
    ensures lo < r < hi ==> r == x
    ensures r == lo ==> x <= lo || lo == hi
    ensures r == hi ==> x >= hi || lo == hi
  {
    if x <= lo then lo else if x >= hi then hi else x
  }

  /* ---------------------------------------------------------------- */
  /* search_negamax                                                    */
  /* ---------------------------------------------------------------- */

  /** The score of a branch for the side choosing it: its child's value, negated. */
  function ScoreOf(b: Branch, depth: nat): int
    decreases depth, 2
  {
    -NegamaxValue(b.child, depth)
  }

  /**
   * search_negamax: the evaluation at depth 0, otherwise the best child
   * score, starting from -INFINITY (so a position without moves is worth
   * -INFINITY to the side to move).
   */
  function NegamaxValue(t: Tree, depth: nat): int
    decreases depth, 1
  {
    if depth == 0 then t.eval else BestFrom(t.branches, 0, depth - 1)
  }

  /** The largest score among the branches from index `i` on, and -INFINITY when there is none that large. */
  function BestFrom(bs: seq<Branch>, i: nat, depth: nat): (r: int)
    requires i <= |bs|
    ensures r >= -INFINITY
    decreases depth + 1, 0, |bs| - i
  {
    if i == |bs| then -INFINITY else Max(ScoreOf(bs[i], depth), BestFrom(bs, i + 1, depth))
  }

  /** BestFrom is the maximum: no branch from `i` on scores more, and one scores exactly that unless it is -INFINITY. */
  lemma {:induction false} BestFromIsMax(bs: seq<Branch>, i: nat, depth: nat)
    requires i <= |bs|
    ensures forall j :: i <= j < |bs| ==> ScoreOf(bs[j], depth) <= BestFrom(bs, i, depth)
    ensures BestFrom(bs, i, depth) == -INFINITY || exists j :: i <= j < |bs| && ScoreOf(bs[j], depth) == BestFrom(bs, i, depth)
    decreases |bs| - i
  {
    if i < |bs| {
      BestFromIsMax(bs, i + 1, depth);
    }
  }

  /** What search_root_negamax computes at the root: the best move score, each child searched to `depth`. */
  function RootValue(t: Tree, depth: nat): int {
    BestFrom(t.branches, 0, depth)
  }

  /** Reordering the moves does not change the best score. */
  lemma BestFromPermutation(bs: seq<Branch>, cs: seq<Branch>, depth: nat)
    requires multiset(bs) == multiset(cs)
    ensures BestFrom(bs, 0, depth) == BestFrom(cs, 0, depth)
  {
    var x, y := BestFrom(bs, 0, depth), BestFrom(cs, 0, depth);
    BestFromIsMax(bs, 0, depth);
    BestFromIsMax(cs, 0, depth);
    forall j | 0 <= j < |bs|
      ensures ScoreOf(bs[j], depth) <= y
    {
      assert bs[j] in multiset(cs);
    }
    forall j | 0 <= j < |cs|
      ensures ScoreOf(cs[j], depth) <= x
    {
      assert cs[j] in multiset(bs);
    }
    if x != -INFINITY {
      var j :| 0 <= j < |bs| && ScoreOf(bs[j], depth) == x;
    }
    if y != -INFINITY {
      var j :| 0 <= j < |cs| && ScoreOf(cs[j], depth) == y;
    }
  }

  /** Every evaluation in the tree lies in [-INFINITY, INFINITY]. */
  predicate Bounded(t: Tree) {
    -INFINITY <= t.eval <= INFINITY &&
    forall i :: 0 <= i < |t.branches| ==> Bounded(t.branches[i].child)
  }

  /** With bounded evaluations the negamax value is bounded too. */
  lemma {:induction false} NegamaxBounded(t: Tree, depth: nat)
    requires Bounded(t)
    ensures -INFINITY <= NegamaxValue(t, depth) <= INFINITY
  {
    if depth > 0 {
      var r := BestFrom(t.branches, 0, depth - 1);
      BestFromIsMax(t.branches, 0, depth - 1);
      if r != -INFINITY {
        var j :| 0 <= j < |t.branches| && ScoreOf(t.branches[j], depth - 1) == r;
        NegamaxBounded(t.branches[j].child, depth - 1);
      }
    }
  }

  /* ---------------------------------------------------------------- */
  /* sortMoves                                                         */
  /* ---------------------------------------------------------------- */

  /** The two moves have the same from and to squares, the test sortMoves uses. */
  predicate SameSquares(m: Move, n: Move) {
    m.from == n.from && m.to == n.to
  }

  /** The first index from `start` below `len` whose move has the squares of `target`, or `len`. */
  function FirstMatch(s: seq<Branch>, len: nat, target: Move, start: nat): (i: nat)
    requires len <= |s| && start <= len
    ensures start <= i <= len
    ensures i < len ==> SameSquares(s[i].move, target)
    ensures forall j :: start <= j < i ==> !SameSquares(s[j].move, target)
    decreases len - start
  {
    if start == len then len
    else if SameSquares(s[start].move, target) then start
    else FirstMatch(s, len, target, start + 1)
  }

  /** The list with entries 0 and `i` exchanged. */
  function Swapped<T>(s: seq<T>, i: nat): (r: seq<T>)
    requires i < |s|
    ensures |r| == |s| && r[0] == s[i] && r[i] == s[0]
    ensures forall j :: 0 <= j < |s| && j != 0 && j != i ==> r[j] == s[j]
  {
    s[0 := s[i]][i := s[0]]
  }

  /** Exchanging two entries keeps the same moves. */
  lemma SwappedIsPermutation<T>(s: seq<T>, i: nat)
    requires i < |s|
    ensures multiset(Swapped(s, i)) == multiset(s)
  {
    var t := s[0 := s[i]];
    assert multiset(t) == multiset(s) - multiset{s[0]} + multiset{s[i]};
    assert multiset(t[i := s[0]]) == multiset(t) - multiset{t[i]} + multiset{s[0]};
    if i != 0 {
      assert t[i] == s[i];
    }
  }

  /** What sortMoves leaves: the first move matching `target` brought to the front, or the list unchanged. */
  function Sorted(s: seq<Branch>, len: nat, target: Move): (r: seq<Branch>)
    requires len <= |s|
    ensures |r| == |s| && multiset(r) == multiset(s)
    ensures (exists j :: 0 <= j < len && SameSquares(s[j].move, target)) ==> SameSquares(r[0].move, target)
    ensures (forall j :: 0 <= j < len ==> !SameSquares(s[j].move, target)) ==> r == s
  {
    var k := FirstMatch(s, len, target, 0);
    if k < len then
      SwappedIsPermutation(s, k);
      Swapped(s, k)
    else
      s
  }

  /** A move of the sorted list is a move of the original list. */
  lemma SortedMember(s: seq<Branch>, len: nat, target: Move, i: nat)
    requires len <= |s| && i < |s|
    ensures exists k :: 0 <= k < |s| && s[k] == Sorted(s, len, target)[i]
  {
    var r := Sorted(s, len, target);
    assert r[i] in multiset(r);
    assert r[i] in multiset(s);
  }

  /* ---------------------------------------------------------------- */
  /* The transposition table as the search uses it                     */
  /* ---------------------------------------------------------------- */

  /** The `int` depth passed where tt_save and tt_probe take a U16. */
  function Depth16(depth: int): U16 {
    depth % 0x1_0000
  }

  /** The table contents fit the mask: mask + 1 entries, or anything when the table is off. */
  predicate Shaped(table: seq<Entry>, mask: nat) {
    mask > 0 ==> |table| == mask + 1
  }

  /** tt_save on the table contents. */
  function Put(table: seq<Entry>, mask: nat, hash: bv64, val: int, depth: int, flag: U16): (r: seq<Entry>)
    requires Shaped(table, mask)
    ensures |r| == |table|
    ensures mask == 0 ==> r == table
  {
    Saved(table, mask, hash, val, Depth16(depth), flag)
  }

  /** tt_probe on the table contents. */
  function Look(table: seq<Entry>, mask: nat, hash: bv64, alpha: int, beta: int, depth: int): (v: int)
    requires Shaped(table, mask)
    ensures mask == 0 ==> v == 0
  {
    if mask == 0 then 0 else ProbeEntry(table[Slot(hash, mask)], hash, alpha, beta, Depth16(depth))
  }

  /* ---------------------------------------------------------------- */
  /* search_alphaBeta                                                  */
  /* ---------------------------------------------------------------- */

  /**
   * What stays fixed during a search: the stop flag, the table mask, and
   * whether a position without moves is scored as the code is written
   * (+INFINITY when white is to move) or as intended (-INFINITY).
   */
  datatype Env = Env(stop: bool, mask: nat, asWritten: bool)

  /** What a search returns and leaves behind: its score, the table, and the number of nodes it counted. */
  datatype Outcome = Outcome(score: int, table: seq<Entry>, visited: nat)

  /** The score of a position without moves. */
  function NoMovesScore(side: int, asWritten: bool): int {
    if asWritten && side == WHITE then INFINITY else -INFINITY
  }

  /** search_alphaBeta: the evaluation at depth 0, otherwise a visit of the node. */
  function Search(t: Tree, alpha: int, beta: int, depth: nat, table: seq<Entry>, env: Env): (o: Outcome)
    requires Shaped(table, env.mask)
    ensures Shaped(o.table, env.mask)
    decreases depth, 2, 0
  {
    if depth == 0 then Outcome(t.eval, table, 0)
    else Visit(t, alpha, beta, depth, table, env)
  }

  /**
   * search_alphaBeta above depth 0: the node is counted, a stop request
   * answers 0, a table hit is returned as is, a position without moves is
   * scored and saved EXACT, and the moves are scanned in order.
   */
  function Visit(t: Tree, alpha: int, beta: int, depth: nat, table: seq<Entry>, env: Env): (o: Outcome)
    requires Shaped(table, env.mask) && depth >= 1
    ensures Shaped(o.table, env.mask)
    decreases depth, 1, 0
  {
    if env.stop then Outcome(0, table, 1)
    else
      var hit := Look(table, env.mask, t.hash, alpha, beta, depth);
      if hit != 0 then Outcome(hit, table, 1)
      else if |t.branches| == 0 then
        var score := NoMovesScore(t.side, env.asWritten);
        Outcome(score, Put(table, env.mask, t.hash, score, depth, EXACT), 1)
      else
        Scan(t, 0, alpha, beta, depth, table, env, ALPHA, 1)
  }

  /**
   * The move loop of search_alphaBeta from move `i` on, with the window's
   * current lower bound `alpha`, the flag so far and the nodes counted so
   * far: a child score at or above beta is saved as BETA and answered
   * with beta; one above alpha raises alpha and makes the flag EXACT; at
   * the end alpha is saved with the flag and answered.
   */
  function Scan(t: Tree, i: nat, alpha: int, beta: int, depth: nat, table: seq<Entry>, env: Env, flag: U16, visited: nat): (o: Outcome)
    requires Shaped(table, env.mask) && 1 <= depth && i <= |t.branches|
    ensures Shaped(o.table, env.mask)
    ensures o.visited >= visited
    decreases depth, 0, |t.branches| - i
  {
    if i == |t.branches| then Outcome(alpha, Put(table, env.mask, t.hash, alpha, depth, flag), visited)
    else
      var c := Search(t.branches[i].child, -beta, -alpha, depth - 1, table, env);
      var score := -c.score;
      if score >= beta then Outcome(beta, Put(c.table, env.mask, t.hash, beta, depth, BETA), visited + c.visited)
      else if score > alpha then Scan(t, i + 1, score, beta, depth, c.table, env, EXACT, visited + c.visited)
      else Scan(t, i + 1, alpha, beta, depth, c.table, env, flag, visited + c.visited)
  }

  /** Past the last move the loop saves alpha with the flag it reached. */
  lemma ScanEnd(t: Tree, alpha: int, beta: int, depth: nat, table: seq<Entry>, env: Env, flag: U16, visited: nat)
    requires Shaped(table, env.mask) && 1 <= depth
    ensures Scan(t, |t.branches|, alpha, beta, depth, table, env, flag, visited) ==
              Outcome(alpha, Put(table, env.mask, t.hash, alpha, depth, flag), visited)
  {
  }

  /** A child answer at or above beta ends the move loop with beta, saved as BETA. */
  lemma ScanCutoff(t: Tree, i: nat, alpha: int, beta: int, depth: nat, table: seq<Entry>, env: Env, flag: U16, visited: nat, c: Outcome)
    requires Shaped(table, env.mask) && 1 <= depth && i < |t.branches|
    requires c == Search(t.branches[i].child, -beta, -alpha, depth - 1, table, env) && -c.score >= beta
    ensures Scan(t, i, alpha, beta, depth, table, env, flag, visited) ==
              Outcome(beta, Put(c.table, env.mask, t.hash, beta, depth, BETA), visited + c.visited)
  {
  }

  /**
   * A child answer below beta moves the loop to the next move: alpha
   * becomes the larger of alpha and the answer, the flag becomes EXACT
   * exactly when alpha rose, and the table and count are the child's.
   */
  lemma ScanNext(t: Tree, i: nat, alpha: int, beta: int, depth: nat, table: seq<Entry>, env: Env, flag: U16, visited: nat,
                 c: Outcome, newAlpha: int, newFlag: U16)
    requires Shaped(table, env.mask) && 1 <= depth && i < |t.branches|
    requires c == Search(t.branches[i].child, -beta, -alpha, depth - 1, table, env) && -c.score < beta
    requires newAlpha == Max(alpha, -c.score) && newFlag == (if -c.score > alpha then EXACT else flag)
    ensures Scan(t, i, alpha, beta, depth, table, env, flag, visited) ==
              Scan(t, i + 1, newAlpha, beta, depth, c.table, env, newFlag, visited + c.visited)
  {
  }

  /**
   * Whatever the table holds, a stop request or the scoring of positions
   * without moves, the move loop answers within the window: a cutoff
   * answers beta, otherwise alpha only rises to child answers below beta.
   */
  lemma {:induction false} ScanWithinWindow(t: Tree, i: nat, alpha: int, beta: int, depth: nat, table: seq<Entry>, env: Env, flag: U16, visited: nat)
    requires Shaped(table, env.mask) && 1 <= depth && i <= |t.branches| && alpha <= beta
    ensures alpha <= Scan(t, i, alpha, beta, depth, table, env, flag, visited).score <= beta
    decreases |t.branches| - i
  {
    if i < |t.branches| {
      var c := Search(t.branches[i].child, -beta, -alpha, depth - 1, table, env);
      var score := -c.score;
      if score >= beta {
      } else if score > alpha {
        ScanWithinWindow(t, i + 1, score, beta, depth, c.table, env, EXACT, visited + c.visited);
      } else {
        ScanWithinWindow(t, i + 1, alpha, beta, depth, c.table, env, flag, visited + c.visited);
      }
    }
  }

  /** A node that misses the table, is not stopped and has moves is answered within the window [alpha, beta]. */
  lemma VisitWithinWindow(t: Tree, alpha: int, beta: int, depth: nat, table: seq<Entry>, env: Env)
    requires Shaped(table, env.mask) && 1 <= depth && alpha <= beta
    requires !env.stop && Look(table, env.mask, t.hash, alpha, beta, depth) == 0 && |t.branches| > 0
    ensures alpha <= Visit(t, alpha, beta, depth, table, env).score <= beta
  {
    ScanWithinWindow(t, 0, alpha, beta, depth, table, env, ALPHA, 1);
  }

  /** A node whose score is not clamped to the window: a leaf, or a position without moves. */
  predicate Unclamped(t: Tree, depth: nat) {
    depth == 0 || |t.branches| == 0
  }

  /** The environment of a search that runs to the end with the table switched off. */
  predicate Plain(env: Env) {
    !env.stop && env.mask == 0 && !env.asWritten
  }

  /**
   * Without a table and without a stop request, fail-hard alpha-beta
   * computes the negamax value clamped to the window, except at leaves and
   * at positions without moves, whose value is returned as is; the table
   * is left alone.
   */
  lemma {:induction false} SearchIsClampedNegamax(t: Tree, alpha: int, beta: int, depth: nat, table: seq<Entry>, env: Env)
    requires Plain(env) && -INFINITY <= alpha <= beta <= INFINITY
    ensures Search(t, alpha, beta, depth, table, env).table == table
    ensures Search(t, alpha, beta, depth, table, env).score ==
              if Unclamped(t, depth) then NegamaxValue(t, depth) else Clamp(NegamaxValue(t, depth), alpha, beta)
    decreases depth, 1, 0
  {
    if depth > 0 && |t.branches| > 0 {
      ScanIsClampedBest(t, 0, alpha, beta, depth, table, env, ALPHA, 1);
    }
  }

  /**
   * One child's answer `s` seen from the parent: the child's value `v`
   * itself, or clamped to the negated window [-beta, -alpha].
   */
  lemma ChildAnswer(v: int, s: int, alpha: int, beta: int, unclamped: bool)
    requires alpha <= beta
    requires s == if unclamped then v else Clamp(v, -beta, -alpha)
    ensures -s >= beta ==> -v >= beta || alpha == beta
    ensures -s < beta ==> -v < beta
    ensures alpha < -s < beta ==> -s == -v
    ensures -s <= alpha ==> -v <= alpha || alpha == beta
  {
  }

  /** The move loop computes the best score from move `i` on, with `alpha` joined in, clamped to the window. */
  lemma {:induction false} ScanIsClampedBest(t: Tree, i: nat, alpha: int, beta: int, depth: nat, table: seq<Entry>, env: Env, flag: U16, visited: nat)
    requires Plain(env) && -INFINITY <= alpha <= beta <= INFINITY
    requires 1 <= depth && i <= |t.branches|
    ensures Scan(t, i, alpha, beta, depth, table, env, flag, visited).table == table
    ensures Scan(t, i, alpha, beta, depth, table, env, flag, visited).score ==
              Clamp(Max(alpha, BestFrom(t.branches, i, depth - 1)), alpha, beta)
    decreases depth, 0, |t.branches| - i
  {
    var o := Scan(t, i, alpha, beta, depth, table, env, flag, visited);
    var best := BestFrom(t.branches, i, depth - 1);
    if i < |t.branches| {
      var child := t.branches[i].child;
      var c := Search(child, -beta, -alpha, depth - 1, table, env);
      var v := NegamaxValue(child, depth - 1);
      SearchIsClampedNegamax(child, -beta, -alpha, depth - 1, table, env);
      ChildAnswer(v, c.score, alpha, beta, Unclamped(child, depth - 1));
      var rest := BestFrom(t.branches, i + 1, depth - 1);
      assert ScoreOf(t.branches[i], depth - 1) == -v;
      assert best == Max(-v, rest);
      var score := -c.score;
      if score >= beta {
        assert o == Outcome(beta, Put(c.table, env.mask, t.hash, beta, depth, BETA), visited + c.visited);
      } else if score > alpha {
        assert o == Scan(t, i + 1, score, beta, depth, c.table, env, EXACT, visited + c.visited);
        ScanIsClampedBest(t, i + 1, score, beta, depth, c.table, env, EXACT, visited + c.visited);
      } else {
        assert o == Scan(t, i + 1, alpha, beta, depth, c.table, env, flag, visited + c.visited);
        ScanIsClampedBest(t, i + 1, alpha, beta, depth, c.table, env, flag, visited + c.visited);
      }
    }
  }

  /* ---------------------------------------------------------------- */
  /* search_root                                                       */
  /* ---------------------------------------------------------------- */

  /** What the root loop returns and leaves: the score, the table, the nodes counted, and the index of the move last stored as the PV head (-1 for none). */
  datatype RootOutcome = RootOutcome(score: int, table: seq<Entry>, visited: nat, best: int)

  /**
   * The move loop of search_root from move `i` on: every child is searched
   * to the root's own depth at ply 1 with the window negated, and a score
   * above alpha raises alpha and makes that move the head of the PV.
   */
  function RootScan(bs: seq<Branch>, i: nat, alpha: int, beta: int, depth: nat, table: seq<Entry>, env: Env, visited: nat, best: int): (o: RootOutcome)
    requires Shaped(table, env.mask) && i <= |bs| && best < i
    ensures Shaped(o.table, env.mask)
    decreases |bs| - i
  {
    if i == |bs| then RootOutcome(alpha, table, visited, best)
    else
      var c := Search(bs[i].child, -beta, -alpha, depth, table, env);
      var score := -c.score;
      if score > alpha then RootScan(bs, i + 1, score, beta, depth, c.table, env, visited + c.visited, i)
      else RootScan(bs, i + 1, alpha, beta, depth, c.table, env, visited + c.visited, best)
  }

  /**
   * The root loop never lowers alpha; the best index it ends with is the
   * one it started with, and then the score is still alpha, or the index
   * of a move from `i` on.
   */
  lemma {:induction false} RootScanKeepsBest(bs: seq<Branch>, i: nat, alpha: int, beta: int, depth: nat, table: seq<Entry>, env: Env, visited: nat, best: int)
    requires Shaped(table, env.mask) && i <= |bs| && best < i
    ensures var o := RootScan(bs, i, alpha, beta, depth, table, env, visited, best);
            o.score >= alpha && (o.best == best || i <= o.best < |bs|) && (o.best == best ==> o.score == alpha)
    decreases |bs| - i
  {
    if i < |bs| {
      var c := Search(bs[i].child, -beta, -alpha, depth, table, env);
      if -c.score > alpha {
        RootScanKeepsBest(bs, i + 1, -c.score, beta, depth, c.table, env, visited + c.visited, i);
      } else {
        RootScanKeepsBest(bs, i + 1, alpha, beta, depth, c.table, env, visited + c.visited, best);
      }
    }
  }

  /**
   * One step of the root loop: alpha becomes the larger of alpha and the
   * child's answer, the best index becomes `i` exactly when alpha rose,
   * and the table and count are the child's.
   */
  lemma RootScanNext(bs: seq<Branch>, i: nat, alpha: int, beta: int, depth: nat, table: seq<Entry>, env: Env, visited: nat, best: int,
                     c: Outcome, newAlpha: int, newBest: int)
    requires Shaped(table, env.mask) && i < |bs| && best < i
    requires c == Search(bs[i].child, -beta, -alpha, depth, table, env)
    requires newAlpha == Max(alpha, -c.score) && newBest == (if -c.score > alpha then i else best)
    ensures RootScan(bs, i, alpha, beta, depth, table, env, visited, best) ==
              RootScan(bs, i + 1, newAlpha, beta, depth, c.table, env, visited + c.visited, newBest)
  {
  }

  /** One step of the root loop without a table: the move's own score decides, and the table stays as it was. */
  lemma RootStep(bs: seq<Branch>, i: nat, alpha: int, depth: nat, table: seq<Entry>, env: Env, visited: nat, best: int)
    requires Plain(env) && -INFINITY <= alpha <= INFINITY && i < |bs| && best < i
    requires -INFINITY <= ScoreOf(bs[i], depth) <= INFINITY
    ensures var n := visited + Search(bs[i].child, -INFINITY, -alpha, depth, table, env).visited;
            var s := ScoreOf(bs[i], depth);
            RootScan(bs, i, alpha, INFINITY, depth, table, env, visited, best) ==
              if s > alpha then RootScan(bs, i + 1, s, INFINITY, depth, table, env, n, i)
              else RootScan(bs, i + 1, alpha, INFINITY, depth, table, env, n, best)
  {
    var child := bs[i].child;
    var c := Search(child, -INFINITY, -alpha, depth, table, env);
    var v := NegamaxValue(child, depth);
    SearchIsClampedNegamax(child, -INFINITY, -alpha, depth, table, env);
    ChildAnswer(v, c.score, alpha, INFINITY, Unclamped(child, depth));
    assert ScoreOf(bs[i], depth) == -v;
  }

  /**
   * Without a table and a stop request, and with every move scored within
   * [-INFINITY, INFINITY], the root loop with beta = INFINITY finds the
   * best move score joined with alpha, and the move it keeps as the PV
   * head scores exactly that.
   */
  lemma {:induction false} RootScanIsBest(bs: seq<Branch>, i: nat, alpha: int, depth: nat, table: seq<Entry>, env: Env, visited: nat, best: int)
    requires Plain(env) && -INFINITY <= alpha <= INFINITY && i <= |bs| && best < i
    requires forall j :: 0 <= j < |bs| ==> -INFINITY <= ScoreOf(bs[j], depth) <= INFINITY
    ensures RootScan(bs, i, alpha, INFINITY, depth, table, env, visited, best).score == Max(alpha, BestFrom(bs, i, depth))
    ensures var o := RootScan(bs, i, alpha, INFINITY, depth, table, env, visited, best);
            o.best != best ==> 0 <= o.best < |bs| && o.score == ScoreOf(bs[o.best], depth)
    decreases |bs| - i
  {
    if i < |bs| {
      RootStep(bs, i, alpha, depth, table, env, visited, best);
      var n := visited + Search(bs[i].child, -INFINITY, -alpha, depth, table, env).visited;
      var s := ScoreOf(bs[i], depth);
      assert BestFrom(bs, i, depth) == Max(s, BestFrom(bs, i + 1, depth));
      if s > alpha {
        RootScanIsBest(bs, i + 1, s, depth, table, env, n, i);
        RootScanKeepsBest(bs, i + 1, s, INFINITY, depth, table, env, n, i);
      } else {
        RootScanIsBest(bs, i + 1, alpha, depth, table, env, n, best);
      }
    }
  }

  /**
   * search_root(-INFINITY, INFINITY, depth) without a table and a stop
   * request scores the root as search_root_negamax does, whatever order
   * sortMoves put the moves in, and stores a move reaching that score as
   * the PV head whenever the score is above -INFINITY.
   */
  lemma RootSearchIsRootNegamax(t: Tree, target: Move, depth: nat, table: seq<Entry>, env: Env)
    requires Plain(env) && Bounded(t)
    ensures var sorted := Sorted(t.branches, |t.branches|, target);
            var o := RootScan(sorted, 0, -INFINITY, INFINITY, depth, table, env, 0, -1);
            o.score == RootValue(t, depth) &&
            (o.score > -INFINITY ==> 0 <= o.best < |sorted| && ScoreOf(sorted[o.best], depth) == o.score)
  {
    var sorted := Sorted(t.branches, |t.branches|, target);
    forall j | 0 <= j < |sorted|
      ensures -INFINITY <= ScoreOf(sorted[j], depth) <= INFINITY
    {
      SortedMember(t.branches, |t.branches|, target, j);
      NegamaxBounded(sorted[j].child, depth);
    }
    RootScanIsBest(sorted, 0, -INFINITY, depth, table, env, 0, -1);
    RootScanKeepsBest(sorted, 0, -INFINITY, INFINITY, depth, table, env, 0, -1);
    BestFromPermutation(sorted, t.branches, depth);
  }

  /* ---------------------------------------------------------------- */
  /* A position without moves                                          */
  /* ---------------------------------------------------------------- */

  /**
   * As written, search_alphaBeta scores a white position without moves at
   * +INFINITY for white, the side to move, while search_negamax and the
   * side-to-move convention of eval_position make it -INFINITY.
   */
  lemma NoMovesAsWritten(hash: bv64, eval: int)
    ensures var t := Tree(hash, WHITE, eval, []);
            Search(t, -INFINITY, INFINITY, 1, [], Env(false, 0, true)).score == INFINITY &&
            Search(t, -INFINITY, INFINITY, 1, [], Env(false, 0, false)).score == -INFINITY &&
            NegamaxValue(t, 1) == -INFINITY
  {
  }

  /**
   * The consequence at the root: with black to move, a mating move and a
   * quiet move, the code as written keeps the quiet move (the mate is
   * scored -INFINITY for black), the intended scoring keeps the mate.
   */
  lemma AsWrittenAvoidsMate(mate: Move, quiet: Move, reply: Move)
    ensures var mated := Tree(1, WHITE, 0, []);
            var calm := Tree(2, WHITE, 0, [Branch(reply, Tree(3, BLACK, 0, []))]);
            var bs := [Branch(mate, mated), Branch(quiet, calm)];
            RootScan(bs, 0, -INFINITY, INFINITY, 1, [], Env(false, 0, true), 0, -1) == RootOutcome(0, [], 2, 1) &&
            RootScan(bs, 0, -INFINITY, INFINITY, 1, [], Env(false, 0, false), 0, -1) == RootOutcome(INFINITY, [], 2, 0)
  {
    var mated := Tree(1, WHITE, 0, []);
    var calm := Tree(2, WHITE, 0, [Branch(reply, Tree(3, BLACK, 0, []))]);
    var bs := [Branch(mate, mated), Branch(quiet, calm)];
    var wrong, right := Env(false, 0, true), Env(false, 0, false);
    assert Search(mated, -INFINITY, INFINITY, 1, [], wrong) == Outcome(INFINITY, [], 1);
    assert Search(calm, -INFINITY, INFINITY, 1, [], wrong) == Outcome(0, [], 1);
    assert RootScan(bs, 2, 0, INFINITY, 1, [], wrong, 2, 1) == RootOutcome(0, [], 2, 1);
    assert RootScan(bs, 1, -INFINITY, INFINITY, 1, [], wrong, 1, -1) == RootOutcome(0, [], 2, 1);
    assert Search(mated, -INFINITY, INFINITY, 1, [], right) == Outcome(-INFINITY, [], 1);
    assert Search(calm, -INFINITY, -INFINITY, 1, [], right) == Outcome(-INFINITY, [], 1);
    assert RootScan(bs, 2, INFINITY, INFINITY, 1, [], right, 2, 0) == RootOutcome(INFINITY, [], 2, 0);
    assert RootScan(bs, 1, INFINITY, INFINITY, 1, [], right, 1, 0) == RootOutcome(INFINITY, [], 2, 0);
  }
}
