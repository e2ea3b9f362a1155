/**
 * The search of src/search.c as the engine runs it: the static PV table,
 * the stop flag and node counter, and the transposition table, updated in
 * place by iterative deepening over search_root and search_alphaBeta, and
 * by the plain negamax beside them.  Every method is proved against the
 * functions of SearchSpec.
 */
module Search {
  import opened Wrappers
  import opened Pieces
  import opened Moves
  import opened TT
  import opened SearchSpec

  /** A move whose bytes are all zero, as memset leaves the PV table. */
  const ZERO_MOVE: Move := Move(0, 0, NORMAL, 0, Some(0), 0)

  /** The static state of search.c: pv, pv_length, sState, and the transposition table it reads and writes. */
  class Searcher {
    const pv: array2<Move>
    const pvLength: array<int>
    var stop: bool
    var nodes: int
    const tt: Table
    /** Whether a position without moves is scored as search.c:232 is written (+INFINITY when White is to move) or as intended. */
    const asWritten: bool

    ghost predicate Valid()
      reads tt
    {
      pv.Length0 == MAX_DEPTH && pv.Length1 == MAX_DEPTH && pvLength.Length == MAX_DEPTH && tt.Valid()
    }

    /** Each line is empty or runs from its own ply to at most MAX_DEPTH. */
    ghost predicate LinesWellFormed()
      reads pvLength
      requires pvLength.Length == MAX_DEPTH
    {
      forall k :: 0 <= k < MAX_DEPTH ==> pvLength[k] == 0 || k < pvLength[k] <= MAX_DEPTH
    }

    /** The principal variation stored for `ply`: pv[ply][ply .. pv_length[ply]]. */
    ghost function Line(ply: int): seq<Move>
      reads tt, pv, pvLength
      requires Valid() && LinesWellFormed() && 0 <= ply < MAX_DEPTH
    {
      var rows, end := pv, pvLength[ply];
      if end == 0 then [] else seq(end - ply, j requires 0 <= j < end - ply reads rows => rows[ply, ply + j])
    }

    /** The zero-initialised statics, with the given table and scoring of positions without moves. */
    constructor (tt: Table, asWritten: bool)
      requires tt.Valid()
      ensures Valid() && LinesWellFormed() && this.tt == tt && this.asWritten == asWritten && !stop && nodes == 0 && fresh(pv) && fresh(pvLength)
      ensures forall k :: 0 <= k < MAX_DEPTH ==> Line(k) == []
      ensures forall k, j :: 0 <= k < MAX_DEPTH && 0 <= j < MAX_DEPTH ==> pv[k, j] == ZERO_MOVE
      ensures forall k :: 0 <= k < MAX_DEPTH ==> pvLength[k] == 0
    {
      pv := new Move[MAX_DEPTH, MAX_DEPTH]((i, j) => ZERO_MOVE);
      pvLength := new int[MAX_DEPTH](i => 0);
      stop := false;
      nodes := 0;
      this.tt := tt;
      this.asWritten := asWritten;
    }

    /** search_stop: raise the flag the search polls. */
    method Stop()
      modifies this
      ensures stop && nodes == old(nodes)
    {
      stop := true;
    }

    /* -------------------------------------------------------------- */
    /* _updatePV                                                       */
    /* -------------------------------------------------------------- */

    /**
     * The row copy of _updatePV: the move goes to pv[ply][ply] and the
     * child's line pv[ply + 1][ply + 1 .. pv_length[ply + 1]] is copied
     * behind it; nothing else in the table changes.
     */
    method CopyChildLine(mv: Move, ply: int)
      requires Valid() && 0 <= ply < MAX_DEPTH - 1
      requires pvLength[ply + 1] <= MAX_DEPTH
      modifies pv
      ensures pv[ply, ply] == mv
      ensures forall j :: ply < j < pvLength[ply + 1] ==> pv[ply, j] == old(pv[ply + 1, j])
      ensures forall k, j :: 0 <= k < MAX_DEPTH && 0 <= j < MAX_DEPTH && (k != ply || j < ply || (j > ply && j >= pvLength[ply + 1])) ==>
                pv[k, j] == old(pv[k, j])
    {
      pv[ply, ply] := mv;
      var j := ply + 1;
      while j < pvLength[ply + 1]
        invariant ply + 1 <= j && (j <= pvLength[ply + 1] || j == ply + 1)
        invariant pv[ply, ply] == mv
        invariant forall i :: ply < i < j ==> pv[ply, i] == old(pv[ply + 1, i])
        invariant forall k, i :: 0 <= k < MAX_DEPTH && 0 <= i < MAX_DEPTH && (k != ply || i < ply || (i > ply && i >= j)) ==>
                    pv[k, i] == old(pv[k, i])
      {
        pv[ply, j] := pv[ply + 1, j];
        j := j + 1;
      }
    }

    /**
     * _updatePV exactly as written: after the copy the length is the
     * child's, or 1 at the root when the child's is zero; elsewhere a zero
     * child length leaves pv_length[ply] at `ply` (if it was zero) or at
     * its old value, so the move just stored lies outside the line.
     */
    method UpdatePVAsWritten(mv: Move, ply: int)
      requires Valid() && 0 <= ply < MAX_DEPTH - 1
      requires pvLength[ply + 1] <= MAX_DEPTH
      modifies pv, pvLength
      ensures pv[ply, ply] == mv
      ensures forall j :: ply < j < old(pvLength[ply + 1]) ==> pv[ply, j] == old(pv[ply + 1, j])
      ensures forall k, j :: 0 <= k < MAX_DEPTH && 0 <= j < MAX_DEPTH && (k != ply || j < ply || (j > ply && j >= old(pvLength[ply + 1]))) ==>
                pv[k, j] == old(pv[k, j])
      ensures pvLength[ply] ==
                if old(pvLength[ply + 1]) != 0 then old(pvLength[ply + 1])
                else if ply == 0 then 1
                else if old(pvLength[ply]) == 0 then ply
                else old(pvLength[ply])
      ensures forall k :: 0 <= k < MAX_DEPTH && k != ply ==> pvLength[k] == old(pvLength[k])
    {
      if pvLength[ply] == 0 {
        pvLength[ply] := ply;
      }
      CopyChildLine(mv, ply);
      if pvLength[ply + 1] != 0 {
        pvLength[ply] := pvLength[ply + 1];
      } else if ply == 0 {
        pvLength[0] := 1;
      }
    }

    /**
     * _updatePV with the evident intent: the line at `ply` becomes the move
     * followed by the child's line, so an empty child line gives length
     * ply + 1 at every ply, not only at the root.
     */
    method UpdatePV(mv: Move, ply: int)
      requires Valid() && LinesWellFormed() && 0 <= ply < MAX_DEPTH - 1
      modifies pv, pvLength
      ensures Valid() && LinesWellFormed()
      ensures Line(ply) == [mv] + old(Line(ply + 1))
      ensures forall k :: 0 <= k < MAX_DEPTH && k != ply ==> Line(k) == old(Line(k))
      ensures forall k, j :: 0 <= k < ply && 0 <= j < MAX_DEPTH ==> pv[k, j] == old(pv[k, j])
      ensures forall k :: 0 <= k < MAX_DEPTH && k != ply ==> pvLength[k] == old(pvLength[k])
      ensures tt.entries[..] == old(tt.entries[..])
    {
      CopyChildLine(mv, ply);
      if pvLength[ply + 1] != 0 {
        pvLength[ply] := pvLength[ply + 1];
      } else {
        pvLength[ply] := ply + 1;
      }
    }

    /* -------------------------------------------------------------- */
    /* sortMoves                                                       */
    /* -------------------------------------------------------------- */

    /** sortMoves: the first move with the squares of pv[0][ply] is exchanged with the first move. */
    method SortMoves(list: array<Branch>, len: int, ply: int)
      requires Valid() && 0 <= len <= list.Length && 0 <= ply < MAX_DEPTH
      modifies list
      ensures list[..] == Sorted(old(list[..]), len, pv[0, ply])
    {
      var i := 0;
      while i < len
        invariant 0 <= i <= len
        invariant list[..] == old(list[..])
        invariant FirstMatch(list[..], len, pv[0, ply], 0) == FirstMatch(list[..], len, pv[0, ply], i)
      {
        if SameSquares(list[i].move, pv[0, ply]) {
          var temp := list[0];
          list[0] := list[i];
          list[i] := temp;
          assert list[..] == Swapped(old(list[..]), i);
          return;
        }
        i := i + 1;
      }
    }

    /* -------------------------------------------------------------- */
    /* search_alphaBeta                                                */
    /* -------------------------------------------------------------- */

    /**
     * search_alphaBeta at `ply`: its score, the table it leaves and the
     * nodes it counts are those of Search; the PV rows above `ply` are
     * left alone.
     */
    method AlphaBeta(node: Tree, alpha: int, beta: int, depth: int, ply: int) returns (score: int)
      requires Valid() && LinesWellFormed()
      requires 1 <= ply && 0 <= depth && ply + depth < MAX_DEPTH
      modifies this, pv, pvLength, tt.entries
      ensures Valid() && LinesWellFormed()
      ensures stop == old(stop)
      ensures forall j :: 0 <= j < MAX_DEPTH ==> pv[0, j] == old(pv[0, j])
      ensures pvLength[0] == old(pvLength[0])
      ensures var o := Search(node, alpha, beta, depth, old(tt.entries[..]), Env(stop, tt.mask, asWritten));
              score == o.score && tt.entries[..] == o.table && nodes == old(nodes) + o.visited
      decreases depth, 2
    {
      ghost var env := Env(stop, tt.mask, asWritten);
      ghost var goal := Search(node, alpha, beta, depth, tt.entries[..], env);
      if depth == 0 {
        score := node.eval;
        return;
      }
      var flag: U16 := ALPHA;
      nodes := nodes + 1;
      if stop {
        score := 0;
        return;
      }
      var hit := tt.Probe(node.hash, alpha, beta, Depth16(depth));
      if hit != 0 {
        score := hit;
        return;
      }
      if |node.branches| == 0 {
        score := if asWritten && node.side == WHITE then INFINITY else -INFINITY;
        tt.Save(node.hash, score, Depth16(depth), EXACT);
        return;
      }
      score := ScanMoves(node, alpha, beta, depth, ply, 1);
    }

    /**
     * The move loop of search_alphaBeta and the save after it: each child
     * is searched at ply + 1 with the window negated, a cutoff saves beta
     * as BETA, a raise of alpha records the move in the PV line of `ply`,
     * and the end of the loop saves alpha with the flag it reached.  Score,
     * table and count are those of Scan from the first move, `counted`
     * being the nodes already counted for this node.
     */
    method ScanMoves(node: Tree, alpha: int, beta: int, depth: int, ply: int, ghost counted: nat) returns (score: int)
      requires Valid() && LinesWellFormed()
      requires 1 <= ply && 1 <= depth && ply + depth < MAX_DEPTH
      modifies this, pv, pvLength, tt.entries
      ensures Valid() && LinesWellFormed()
      ensures stop == old(stop)
      ensures forall j :: 0 <= j < MAX_DEPTH ==> pv[0, j] == old(pv[0, j])
      ensures pvLength[0] == old(pvLength[0])
      ensures var o := Scan(node, 0, alpha, beta, depth, old(tt.entries[..]), Env(stop, tt.mask, asWritten), ALPHA, counted);
              score == o.score && tt.entries[..] == o.table && nodes - old(nodes) + counted == o.visited
      decreases depth, 1
    {
      ghost var env := Env(stop, tt.mask, asWritten);
      ghost var goal := Scan(node, 0, alpha, beta, depth, tt.entries[..], env, ALPHA, counted);
      var flag: U16 := ALPHA;
      var a := alpha;
      var i := 0;
      ghost var seen: nat := counted;
      while i < |node.branches|
        invariant 0 <= i <= |node.branches|
        invariant Valid() && LinesWellFormed()
        invariant stop == old(stop) && env == Env(stop, tt.mask, asWritten)
        invariant forall j :: 0 <= j < MAX_DEPTH ==> pv[0, j] == old(pv[0, j])
        invariant pvLength[0] == old(pvLength[0])
        invariant nodes - old(nodes) + counted == seen
        invariant Scan(node, i, a, beta, depth, tt.entries[..], env, flag, seen) == goal
      {
        ghost var table := tt.entries[..];
        var cut: bool, raised: int, newFlag: U16;
        ghost var child: Outcome;
        cut, raised, newFlag, child := TryMove(node, i, a, beta, depth, ply, flag);
        if cut {
          ScanCutoff(node, i, a, beta, depth, table, env, flag, seen, child);
          score := beta;
          return;
        }
        ScanNext(node, i, a, beta, depth, table, env, flag, seen, child, raised, newFlag);
        a, flag := raised, newFlag;
        seen := seen + child.visited;
        i := i + 1;
      }
      ScanEnd(node, a, beta, depth, tt.entries[..], env, flag, seen);
      tt.Save(node.hash, a, Depth16(depth), flag);
      score := a;
    }

    /**
     * One pass of the move loop of search_alphaBeta: move `i` is searched
     * at ply + 1 with the window negated, as Search says of its child; a
     * score at or above beta is a cutoff and saves beta as BETA; a score
     * above alpha becomes alpha, makes the flag EXACT and puts the move in
     * the PV line of `ply`.
     */
    method TryMove(node: Tree, i: int, alpha: int, beta: int, depth: int, ply: int, flag: U16)
        returns (cut: bool, a: int, newFlag: U16, ghost child: Outcome)
      requires Valid() && LinesWellFormed()
      requires 1 <= ply && 1 <= depth && ply + depth < MAX_DEPTH && 0 <= i < |node.branches|
      modifies this, pv, pvLength, tt.entries
      ensures Valid() && LinesWellFormed()
      ensures forall j :: 0 <= j < MAX_DEPTH ==> pv[0, j] == old(pv[0, j])
      ensures pvLength[0] == old(pvLength[0])
      ensures stop == old(stop)
      ensures child == Search(node.branches[i].child, -beta, -alpha, depth - 1, old(tt.entries[..]), Env(stop, tt.mask, asWritten))
      ensures nodes == old(nodes) + child.visited
      ensures cut == (-child.score >= beta)
      ensures cut ==> tt.entries[..] == Put(child.table, tt.mask, node.hash, beta, depth, BETA)
      ensures !cut ==> tt.entries[..] == child.table
      ensures !cut && -child.score > alpha ==> a == -child.score && newFlag == EXACT
      ensures !cut && -child.score <= alpha ==> a == alpha && newFlag == flag
      decreases depth, 0
    {
      ghost var env := Env(stop, tt.mask, asWritten);
      child := Search(node.branches[i].child, -beta, -alpha, depth - 1, tt.entries[..], env);
      var s := AlphaBeta(node.branches[i].child, -beta, -alpha, depth - 1, ply + 1);
      assert Env(stop, tt.mask, asWritten) == env;
      s := -s;
      a, newFlag := alpha, flag;
      if s >= beta {
        tt.Save(node.hash, beta, Depth16(depth), BETA);
        cut := true;
        return;
      }
      cut := false;
      if s > alpha {
        a := s;
        newFlag := EXACT;
        UpdatePV(node.branches[i].move, ply);
      }
    }

    /* -------------------------------------------------------------- */
    /* search_root and search_iterate                                  */
    /* -------------------------------------------------------------- */

    /**
     * search_root: the moves are generated, sorted with the previous PV
     * head first, and each is searched to the same depth at ply 1; the
     * score, table and node count are those of RootScan, and the move it
     * keeps last becomes the head of the root line.
     */
    method SearchRoot(node: Tree, alpha: int, beta: int, depth: int) returns (score: int, ghost sorted: seq<Branch>, ghost best: int)
      requires Valid() && LinesWellFormed() && 0 <= depth && 1 + depth < MAX_DEPTH
      modifies this, pv, pvLength, tt.entries
      ensures Valid() && LinesWellFormed()
      ensures stop == old(stop)
      ensures sorted == Sorted(node.branches, |node.branches|, old(pv[0, 0]))
      ensures var o := RootScan(sorted, 0, alpha, beta, depth, old(tt.entries[..]), Env(stop, tt.mask, asWritten), 0, -1);
              score == o.score && best == o.best && tt.entries[..] == o.table && nodes == old(nodes) + o.visited
      ensures -1 <= best < |sorted|
      ensures best >= 0 ==> pvLength[0] > 0 && pv[0, 0] == sorted[best].move
      ensures best < 0 ==> pvLength[0] == old(pvLength[0]) && pv[0, 0] == old(pv[0, 0])
    {
      var list := new Branch[|node.branches|](k requires 0 <= k < |node.branches| => node.branches[k]);
      assert list[..] == node.branches;
      SortMoves(list, list.Length, 0);
      var moves := list[..];
      sorted := moves;
      score, best := ScanRoot(moves, alpha, beta, depth);
    }

    /**
     * The move loop of search_root over the sorted moves: score, best
     * index, table and count are those of RootScan from the first move,
     * and the move at the best index heads the root line.
     */
    method ScanRoot(moves: seq<Branch>, alpha: int, beta: int, depth: int) returns (score: int, ghost best: int)
      requires Valid() && LinesWellFormed() && 0 <= depth && 1 + depth < MAX_DEPTH
      modifies this, pv, pvLength, tt.entries
      ensures Valid() && LinesWellFormed()
      ensures stop == old(stop)
      ensures var o := RootScan(moves, 0, alpha, beta, depth, old(tt.entries[..]), Env(stop, tt.mask, asWritten), 0, -1);
              score == o.score && best == o.best && tt.entries[..] == o.table && nodes == old(nodes) + o.visited
      ensures -1 <= best < |moves|
      ensures best >= 0 ==> pvLength[0] > 0 && pv[0, 0] == moves[best].move
      ensures best < 0 ==> pvLength[0] == old(pvLength[0]) && pv[0, 0] == old(pv[0, 0])
    {
      ghost var env := Env(stop, tt.mask, asWritten);
      ghost var goal := RootScan(moves, 0, alpha, beta, depth, tt.entries[..], env, 0, -1);
      var a := alpha;
      var i := 0;
      best := -1;
      ghost var counted: nat := 0;
      while i < |moves|
        invariant 0 <= i <= |moves| && -1 <= best < i
        invariant Valid() && LinesWellFormed()
        invariant stop == old(stop) && env == Env(stop, tt.mask, asWritten)
        invariant nodes == old(nodes) + counted
        invariant RootScan(moves, i, a, beta, depth, tt.entries[..], env, counted, best) == goal
        invariant best >= 0 ==> pvLength[0] > 0 && pv[0, 0] == moves[best].move
        invariant best < 0 ==> pvLength[0] == old(pvLength[0]) && pv[0, 0] == old(pv[0, 0])
      {
        ghost var table := tt.entries[..];
        var raised: int;
        ghost var child: Outcome;
        raised, child := TryRootMove(moves[i], a, beta, depth);
        ghost var newBest := if -child.score > a then i else best;
        RootScanNext(moves, i, a, beta, depth, table, env, counted, best, child, raised, newBest);
        a, best := raised, newBest;
        counted := counted + child.visited;
        i := i + 1;
      }
      score := a;
    }

    /**
     * One pass of the move loop of search_root: the move is searched at
     * ply 1 with the window negated, as Search says of its child; a score
     * above alpha becomes alpha and puts the move at the head of the root
     * line, which otherwise keeps its length and head.
     */
    method TryRootMove(b: Branch, alpha: int, beta: int, depth: int) returns (a: int, ghost child: Outcome)
      requires Valid() && LinesWellFormed() && 0 <= depth && 1 + depth < MAX_DEPTH
      modifies this, pv, pvLength, tt.entries
      ensures Valid() && LinesWellFormed()
      ensures stop == old(stop)
      ensures child == Search(b.child, -beta, -alpha, depth, old(tt.entries[..]), Env(stop, tt.mask, asWritten))
      ensures tt.entries[..] == child.table && nodes == old(nodes) + child.visited
      ensures a == Max(alpha, -child.score)
      ensures -child.score > alpha ==> pvLength[0] > 0 && pv[0, 0] == b.move
      ensures -child.score <= alpha ==> pvLength[0] == old(pvLength[0]) && pv[0, 0] == old(pv[0, 0])
    {
      ghost var env := Env(stop, tt.mask, asWritten);
      child := Search(b.child, -beta, -alpha, depth, tt.entries[..], env);
      var s := AlphaBeta(b.child, -beta, -alpha, depth, 1);
      assert Env(stop, tt.mask, asWritten) == env;
      s := -s;
      a := alpha;
      if s > alpha {
        a := s;
        UpdatePV(b.move, 0);
        assert Line(0)[0] == pv[0, 0];
      }
    }

    /**
     * search_iterate: clear the PV table, then search the root to depths
     * 1, 2, ..., 6 unless a stop was requested.  The root line's head is
     * always a move of the root or the zero move, and without a table it
     * is a move reaching the depth-6 negamax score of the root whenever
     * that score is above -INFINITY.
     */
    method Iterate(node: Tree)
      requires Valid()
      modifies this, pv, pvLength, tt.entries
      ensures Valid() && LinesWellFormed()
      ensures stop == old(stop)
      ensures stop ==> (forall k :: 0 <= k < MAX_DEPTH ==> Line(k) == []) && tt.entries[..] == old(tt.entries[..])
      ensures pvLength[0] == 0 ==> pv[0, 0] == ZERO_MOVE
      ensures pvLength[0] > 0 ==> exists k :: 0 <= k < |node.branches| && pv[0, 0] == node.branches[k].move
      ensures !asWritten && !stop && tt.mask == 0 && Bounded(node) && RootValue(node, 6) > -INFINITY ==>
                pvLength[0] > 0 &&
                exists k :: 0 <= k < |node.branches| && pv[0, 0] == node.branches[k].move && ScoreOf(node.branches[k], 6) == RootValue(node, 6)
    {
      forall k, j | 0 <= k < MAX_DEPTH && 0 <= j < MAX_DEPTH {
        pv[k, j] := ZERO_MOVE;
      }
      forall k | 0 <= k < MAX_DEPTH {
        pvLength[k] := 0;
      }
      var depth := 1;
      while depth <= MAX_DEPTH
        invariant 1 <= depth <= 7
        invariant Valid() && LinesWellFormed()
        invariant stop == old(stop)
        invariant stop ==> depth == 1 && (forall k :: 0 <= k < MAX_DEPTH ==> pvLength[k] == 0) && tt.entries[..] == old(tt.entries[..])
        invariant pvLength[0] == 0 ==> pv[0, 0] == ZERO_MOVE
        invariant pvLength[0] > 0 ==> exists k :: 0 <= k < |node.branches| && pv[0, 0] == node.branches[k].move
        invariant !asWritten && !stop && tt.mask == 0 && Bounded(node) && depth > 1 && RootValue(node, depth - 1) > -INFINITY ==>
                    pvLength[0] > 0 &&
                    exists k :: 0 <= k < |node.branches| && pv[0, 0] == node.branches[k].move && ScoreOf(node.branches[k], depth - 1) == RootValue(node, depth - 1)
      {
        if depth == 7 {
          break;
        }
        if stop {
          break;
        }
        ghost var table, target := tt.entries[..], pv[0, 0];
        var score, sorted, best := SearchRoot(node, -INFINITY, INFINITY, depth);
        if best >= 0 {
          SortedMember(node.branches, |node.branches|, target, best);
        }
        if !asWritten && tt.mask == 0 && Bounded(node) {
          RootSearchIsRootNegamax(node, target, depth, table, Env(stop, tt.mask, asWritten));
        }
        depth := depth + 1;
      }
    }

    /** search_start: clear the stop flag, iterate, and answer pv[0][0] as the best move. */
    method Start(node: Tree) returns (bestmove: Move)
      requires Valid()
      modifies this, pv, pvLength, tt.entries
      ensures Valid() && !stop
      ensures bestmove == ZERO_MOVE || exists k :: 0 <= k < |node.branches| && bestmove == node.branches[k].move
      ensures !asWritten && tt.mask == 0 && Bounded(node) && RootValue(node, 6) > -INFINITY ==>
                exists k :: 0 <= k < |node.branches| && bestmove == node.branches[k].move && ScoreOf(node.branches[k], 6) == RootValue(node, 6)
    {
      stop := false;
      Iterate(node);
      bestmove := pv[0, 0];
    }

    /* -------------------------------------------------------------- */
    /* search_negamax and search_root_negamax                          */
    /* -------------------------------------------------------------- */

    /** search_negamax: the value is NegamaxValue; the PV rows above `ply` are left alone. */
    method Negamax(node: Tree, depth: int, ply: int) returns (max: int)
      requires Valid() && LinesWellFormed()
      requires 1 <= ply && 0 <= depth && ply + depth < MAX_DEPTH
      modifies pv, pvLength
      ensures Valid() && LinesWellFormed()
      ensures forall k, j :: 0 <= k < ply && 0 <= j < MAX_DEPTH ==> pv[k, j] == old(pv[k, j])
      ensures forall k :: 0 <= k < ply ==> pvLength[k] == old(pvLength[k])
      ensures max == NegamaxValue(node, depth)
      decreases depth
    {
      if depth == 0 {
        return node.eval;
      }
      max := -INFINITY;
      var i := 0;
      while i < |node.branches|
        invariant 0 <= i <= |node.branches|
        invariant Valid() && LinesWellFormed()
        invariant forall k, j :: 0 <= k < ply && 0 <= j < MAX_DEPTH ==> pv[k, j] == old(pv[k, j])
        invariant forall k :: 0 <= k < ply ==> pvLength[k] == old(pvLength[k])
        invariant max >= -INFINITY
        invariant Max(max, BestFrom(node.branches, i, depth - 1)) == NegamaxValue(node, depth)
      {
        var score := Negamax(node.branches[i].child, depth - 1, ply + 1);
        score := -score;
        assert score == ScoreOf(node.branches[i], depth - 1);
        if score > max {
          max := score;
          UpdatePV(node.branches[i].move, ply);
        }
        i := i + 1;
      }
    }

    /**
     * search_root_negamax: the best score over the root moves, each child
     * searched to `depth` at ply 1, and the move reaching it first (none
     * when no move scores above -INFINITY); what it prints is returned.
     */
    method RootNegamax(node: Tree, depth: int) returns (max: int, moveToMake: Option<Move>)
      requires Valid() && LinesWellFormed() && 0 <= depth && 1 + depth < MAX_DEPTH
      modifies pv, pvLength
      ensures Valid() && LinesWellFormed()
      ensures max == RootValue(node, depth)
      ensures moveToMake.Some? <==> max > -INFINITY
      ensures moveToMake.Some? ==>
                exists k :: 0 <= k < |node.branches| && moveToMake.value == node.branches[k].move && ScoreOf(node.branches[k], depth) == max
      ensures moveToMake.Some? ==> pvLength[0] > 0 && pv[0, 0] == moveToMake.value
    {
      max := -INFINITY;
      moveToMake := None;
      var i := 0;
      while i < |node.branches|
        invariant 0 <= i <= |node.branches|
        invariant Valid() && LinesWellFormed()
        invariant max >= -INFINITY
        invariant Max(max, BestFrom(node.branches, i, depth)) == RootValue(node, depth)
        invariant moveToMake.Some? <==> max > -INFINITY
        invariant moveToMake.Some? ==>
                    exists k :: 0 <= k < i && moveToMake.value == node.branches[k].move && ScoreOf(node.branches[k], depth) == max
        invariant moveToMake.Some? ==> pvLength[0] > 0 && pv[0, 0] == moveToMake.value
      {
        var score := Negamax(node.branches[i].child, depth, 1);
        score := -score;
        assert score == ScoreOf(node.branches[i], depth);
        if score > max {
          max := score;
          UpdatePV(node.branches[i].move, 0);
          assert Line(0)[0] == pv[0, 0];
          moveToMake := Some(node.branches[i].move);
        }
        i := i + 1;
      }
    }
  }

  /**
   * _updatePV at ply 1 on the zeroed table with a move whose child line is
   * empty: as written pv_length[1] becomes 1, so the line pv[1][1 .. 1]
   * is empty although pv[1][1] holds the move; the corrected version
   * makes pv_length[1] 2, the line holding just the move.
   */
  method UpdatePVDropsMove(mv: Move, tt: Table) returns (asWritten: int, stored: Move, corrected: int)
    requires tt.Valid()
    ensures asWritten == 1 && stored == mv
    ensures corrected == 2
  {
    var s := new Searcher(tt, false);
    s.UpdatePVAsWritten(mv, 1);
    asWritten := s.pvLength[1];
    stored := s.pv[1, 1];
    var r := new Searcher(tt, false);
    r.UpdatePV(mv, 1);
    assert r.Line(1) == [mv];
    corrected := r.pvLength[1];
  }
}
