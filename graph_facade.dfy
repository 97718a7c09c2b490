/**
 * The graph facade: run a closure over the nodes a traversal yields, and
 * build an iterator that, for each predicate in turn, traverses the graph
 * afresh from one start node and yields the nodes matching that predicate.
 *
 * A traversal strategy's node order is a parameter `traverse`; an iterator is
 * the sequence of nodes it yields; a closure is a step `(S, N) -> S` on the
 * state it acts on.
 */
module GraphFacade {

  datatype NodeIterateStrategy = DepthFirst | BreadthFirst

  /** The nodes of `s` that satisfy `p`, in the order of `s`. */
  function Filter<N>(p: N -> bool, s: seq<N>): (r: seq<N>)
    ensures |r| <= |s|
  {
    if s == [] then [] else (if p(s[0]) then [s[0]] else []) + Filter(p, s[1..])
  }

  /** How many nodes of `s` satisfy `p`. */
  function CountMatching<N>(p: N -> bool, s: seq<N>): nat
  {
    if s == [] then 0 else (if p(s[0]) then 1 else 0) + CountMatching(p, s[1..])
  }

  /** `a` is `b` with some elements left out, the rest in their order. */
  ghost predicate SubsequenceOf<N>(a: seq<N>, b: seq<N>)
    decreases |b|
  {
    if b == [] then a == []
    else SubsequenceOf(a, b[1..]) || (a != [] && a[0] == b[0] && SubsequenceOf(a[1..], b[1..]))
  }

  /**
   * What the per-predicate iterator yields: for each predicate in order, the
   * nodes of one traversal `order` that it matches.
   */
  function PerPredicate<N>(order: seq<N>, preds: seq<N -> bool>): seq<N>
  {
    if preds == [] then []
    else PerPredicate(order, preds[..|preds| - 1]) + Filter(preds[|preds| - 1], order)
  }

  /** How many of `preds` match node `x`. */
  function MatchingPredicates<N>(preds: seq<N -> bool>, x: N): nat
  {
    if preds == [] then 0
    else MatchingPredicates(preds[..|preds| - 1], x) + (if preds[|preds| - 1](x) then 1 else 0)
  }

  /** The sum over `preds` of the number of nodes of `order` each matches. */
  function TotalMatches<N>(order: seq<N>, preds: seq<N -> bool>): nat
  {
    if preds == [] then 0
    else TotalMatches(order, preds[..|preds| - 1]) + CountMatching(preds[|preds| - 1], order)
  }

  /** The state reached by applying `closure` to the nodes of `xs` one at a time, first to last. */
  function Fold<S, N>(closure: (S, N) -> S, s: S, xs: seq<N>): S
  {
    if xs == [] then s else closure(Fold(closure, s, xs[..|xs| - 1]), xs[|xs| - 1])
  }

  /** Applies `closure` to every node the iterator yields, in iteration order. */
  method ForAllDo<S, N>(nodes: seq<N>, closure: (S, N) -> S, s0: S) returns (s: S)
    ensures s == Fold(closure, s0, nodes)
  {
    s := s0;
    var i := 0;
    while i < |nodes|
      invariant 0 <= i <= |nodes|
      invariant s == Fold(closure, s0, nodes[..i])
    {
      var next := nodes[i];
      assert nodes[..i + 1][..i] == nodes[..i];
      s := closure(s, next);
      i := i + 1;
    }
    assert nodes[..i] == nodes;
  }

  /** Applies `closure` to the nodes of a breadth-first traversal from `start`, in that order. */
  method TraverseBreadthFirst<S, N>(start: N, traverse: (NodeIterateStrategy, N) -> seq<N>, closure: (S, N) -> S, s0: S)
    returns (s: S)
    ensures s == Fold(closure, s0, traverse(BreadthFirst, start))
  {
    var objectGraphIterator := traverse(BreadthFirst, start);
    s := ForAllDo(objectGraphIterator, closure, s0);
  }

  /** Applies `closure` to the nodes of a depth-first traversal from `start`, in that order. */
  method TraverseDepthFirst<S, N>(start: N, traverse: (NodeIterateStrategy, N) -> seq<N>, closure: (S, N) -> S, s0: S)
    returns (s: S)
    ensures s == Fold(closure, s0, traverse(DepthFirst, start))
  {
    var objectGraphTransformer := traverse(DepthFirst, start);
    s := ForAllDo(objectGraphTransformer, closure, s0);
  }

  /**
   * The nodes the per-predicate iterator yields: one fresh traversal from
   * `startNode` per predicate, filtered by it, chained in predicate order.
   */
  method PerPredicateNodeIterator<N>(strategy: NodeIterateStrategy, startNode: N, preds: seq<N -> bool>,
                                     traverse: (NodeIterateStrategy, N) -> seq<N>)
    returns (nodes: seq<N>)
    ensures nodes == PerPredicate(traverse(strategy, startNode), preds)
    ensures preds == [] ==> nodes == []
  {
    nodes := [];
    for i := 0 to |preds|
      invariant nodes == PerPredicate(traverse(strategy, startNode), preds[..i])
    {
      var nodePredicate := preds[i];
      var nodeStrategyIterator: seq<N>;
      match strategy {
        case BreadthFirst => nodeStrategyIterator := traverse(BreadthFirst, startNode);
        case DepthFirst => nodeStrategyIterator := traverse(DepthFirst, startNode);
      }
      assert nodeStrategyIterator == traverse(strategy, startNode);
      var predicateFilterIterator := Filter(nodePredicate, nodeStrategyIterator);
      assert preds[..i + 1][..i] == preds[..i] && preds[..i + 1][i] == nodePredicate;
      nodes := nodes + predicateFilterIterator;
      assert nodes == PerPredicate(traverse(strategy, startNode), preds[..i + 1]);
    }
    assert preds[..|preds|] == preds;
  }

  /** Applying a closure that records each node it sees records exactly the iterator's nodes, in order. */
  lemma {:induction false} FoldRecordsEachNodeOnce<N>(trace: seq<N>, xs: seq<N>)
    ensures Fold((t: seq<N>, x: N) => t + [x], trace, xs) == trace + xs
  {
    if xs != [] {
      FoldRecordsEachNodeOnce(trace, xs[..|xs| - 1]);
      assert xs[..|xs| - 1] + [xs[|xs| - 1]] == xs;
    }
  }

  /** Every node a filtered traversal yields matches the predicate. */
  lemma {:induction false} FilterKeepsOnlyMatches<N>(p: N -> bool, s: seq<N>)
    ensures forall k :: 0 <= k < |Filter(p, s)| ==> p(Filter(p, s)[k])
  {
    if s != [] {
      FilterKeepsOnlyMatches(p, s[1..]);
      if p(s[0]) {
        assert Filter(p, s) == [s[0]] + Filter(p, s[1..]);
      }
    }
  }

  /** Filtering keeps the traversal's relative order. */
  lemma {:induction false} FilterIsSubsequence<N>(p: N -> bool, s: seq<N>)
    ensures SubsequenceOf(Filter(p, s), s)
  {
    if s != [] {
      FilterIsSubsequence(p, s[1..]);
      if p(s[0]) {
        assert Filter(p, s) == [s[0]] + Filter(p, s[1..]);
        assert Filter(p, s)[1..] == Filter(p, s[1..]);
      } else {
        assert Filter(p, s) == Filter(p, s[1..]);
      }
    }
  }

  /** A filtered traversal is as long as the number of nodes matching. */
  lemma {:induction false} FilterLength<N>(p: N -> bool, s: seq<N>)
    ensures |Filter(p, s)| == CountMatching(p, s)
  {
    if s != [] {
      FilterLength(p, s[1..]);
    }
  }

  /** A node occurs in a filtered traversal as often as in the traversal if it matches, else not at all. */
  lemma {:induction false} FilterMultiplicity<N>(p: N -> bool, s: seq<N>, x: N)
    ensures multiset(Filter(p, s))[x] == if p(x) then multiset(s)[x] else 0
  {
    if s != [] {
      FilterMultiplicity(p, s[1..], x);
      assert s == [s[0]] + s[1..];
    }
  }

  /** The per-predicate result is as long as the sum of the per-predicate match counts. */
  lemma {:induction false} PerPredicateLength<N>(order: seq<N>, preds: seq<N -> bool>)
    ensures |PerPredicate(order, preds)| == TotalMatches(order, preds)
  {
    if preds != [] {
      PerPredicateLength(order, preds[..|preds| - 1]);
      FilterLength(preds[|preds| - 1], order);
    }
  }

  /**
   * A node occurs in the per-predicate result once per occurrence in the
   * traversal for every predicate matching it: k matching predicates, k times.
   */
  lemma {:induction false} PerPredicateMultiplicity<N>(order: seq<N>, preds: seq<N -> bool>, x: N)
    ensures multiset(PerPredicate(order, preds))[x] == multiset(order)[x] * MatchingPredicates(preds, x)
  {
    if preds != [] {
      var init, last := preds[..|preds| - 1], preds[|preds| - 1];
      var head, segment := PerPredicate(order, init), Filter(last, order);
      assert PerPredicate(order, preds) == head + segment;
      assert MatchingPredicates(preds, x) == MatchingPredicates(init, x) + if last(x) then 1 else 0;
      PerPredicateMultiplicity(order, init, x);
      FilterMultiplicity(last, order, x);
      MultiplicityStep(head, segment, x, multiset(order)[x], MatchingPredicates(init, x), last(x));
    }
  }

  /** Appending a segment that holds `x` either `m` times or not at all adds one factor of `m`, or none. */
  lemma MultiplicityStep<N>(head: seq<N>, segment: seq<N>, x: N, m: nat, k: nat, matches: bool)
    requires multiset(head)[x] == m * k
    requires multiset(segment)[x] == if matches then m else 0
    ensures multiset(head + segment)[x] == m * (k + if matches then 1 else 0)
  {
    assert multiset(head + segment) == multiset(head) + multiset(segment);
    if matches {
      assert m * (k + 1) == m * k + m;
    }
  }

  /** The result for the first `j` predicates is a prefix of the result for all of them. */
  lemma {:induction false} PerPredicatePrefix<N>(order: seq<N>, preds: seq<N -> bool>, j: nat)
    requires j <= |preds|
    ensures PerPredicate(order, preds[..j]) <= PerPredicate(order, preds)
    decreases |preds| - j
  {
    if j < |preds| {
      PerPredicatePrefix(order, preds, j + 1);
      assert preds[..j + 1][..j] == preds[..j];
    } else {
      assert preds[..j] == preds;
    }
  }

  /**
   * Segment `i` of the per-predicate result, which starts after the segments
   * of the predicates before it, is the traversal filtered by predicate `i`:
   * every node in it matches that predicate, in traversal order.
   */
  lemma {:induction false} PerPredicateSegment<N>(order: seq<N>, preds: seq<N -> bool>, i: nat)
    requires i < |preds|
    ensures var start := |PerPredicate(order, preds[..i])|;
            var segment := Filter(preds[i], order);
            && start + |segment| <= |PerPredicate(order, preds)|
            && PerPredicate(order, preds)[start..start + |segment|] == segment
            && (forall k :: start <= k < start + |segment| ==> preds[i](PerPredicate(order, preds)[k]))
            && SubsequenceOf(segment, order)
  {
    var before := PerPredicate(order, preds[..i]);
    var segment := Filter(preds[i], order);
    var upTo := PerPredicate(order, preds[..i + 1]);
    var all := PerPredicate(order, preds);
    assert preds[..i + 1][..i] == preds[..i];
    assert upTo == before + segment;
    PerPredicatePrefix(order, preds, i + 1);
    assert all[..|upTo|] == upTo;
    assert all[|before|..|before| + |segment|] == segment by {
      assert upTo[|before|..] == segment;
    }
    FilterKeepsOnlyMatches(preds[i], order);
    forall k | |before| <= k < |before| + |segment|
      ensures preds[i](all[k])
    {
      assert all[k] == segment[k - |before|];
    }
    FilterIsSubsequence(preds[i], order);
  }

  /** Filtering a traversal that starts with `x` looks at `x`, then filters the rest. */
  lemma FilterCons<N>(p: N -> bool, x: N, s: seq<N>)
    ensures Filter(p, [x] + s) == (if p(x) then [x] else []) + Filter(p, s)
  {
    assert ([x] + s)[1..] == s;
  }

  /**
   * Filtering fourteen nodes, one node at a time. It exists so that the
   * documented example's Filter unfolds cheaply: the solver works on
   * fourteen variables here instead of a literal fourteen-letter sequence.
   */
  lemma FilterFourteen(p: char -> bool, a: char, b: char, c: char, d: char, e: char, f: char, g: char, h: char, i: char, j: char, k: char, l: char, m: char, n: char)
    ensures Filter(p, [a] + ([b] + ([c] + ([d] + ([e] + ([f] + ([g] + ([h] + ([i] + ([j] + ([k] + ([l] + ([m] + ([n] + []))))))))))))))
         == (if p(a) then [a] else []) + ((if p(b) then [b] else []) + ((if p(c) then [c] else []) + ((if p(d) then [d] else []) + ((if p(e) then [e] else []) + ((if p(f) then [f] else []) + ((if p(g) then [g] else []) + ((if p(h) then [h] else []) + ((if p(i) then [i] else []) + ((if p(j) then [j] else []) + ((if p(k) then [k] else []) + ((if p(l) then [l] else []) + ((if p(m) then [m] else []) + ((if p(n) then [n] else []) + [])))))))))))))
  {
    FilterCons(p, n, []);
    FilterCons(p, m, [n] + []);
    FilterCons(p, l, [m] + ([n] + []));
    FilterCons(p, k, [l] + ([m] + ([n] + [])));
    FilterCons(p, j, [k] + ([l] + ([m] + ([n] + []))));
    FilterCons(p, i, [j] + ([k] + ([l] + ([m] + ([n] + [])))));
    FilterCons(p, h, [i] + ([j] + ([k] + ([l] + ([m] + ([n] + []))))));
    FilterCons(p, g, [h] + ([i] + ([j] + ([k] + ([l] + ([m] + ([n] + [])))))));
    FilterCons(p, f, [g] + ([h] + ([i] + ([j] + ([k] + ([l] + ([m] + ([n] + []))))))));
    FilterCons(p, e, [f] + ([g] + ([h] + ([i] + ([j] + ([k] + ([l] + ([m] + ([n] + [])))))))));
    FilterCons(p, d, [e] + ([f] + ([g] + ([h] + ([i] + ([j] + ([k] + ([l] + ([m] + ([n] + []))))))))));
    FilterCons(p, c, [d] + ([e] + ([f] + ([g] + ([h] + ([i] + ([j] + ([k] + ([l] + ([m] + ([n] + [])))))))))));
    FilterCons(p, b, [c] + ([d] + ([e] + ([f] + ([g] + ([h] + ([i] + ([j] + ([k] + ([l] + ([m] + ([n] + []))))))))))));
    FilterCons(p, a, [b] + ([c] + ([d] + ([e] + ([f] + ([g] + ([h] + ([i] + ([j] + ([k] + ([l] + ([m] + ([n] + [])))))))))))));
  }

  /**
   * The breadth-first order of the tree drawn in the facade's documentation,
   * A(B(E, F, G), C(H), D(I, J, K(L, M, N))), read level by level.
   */
  function DocumentedBreadthFirstOrder(): seq<char>
  {
    ['A'] + (['B'] + (['C'] + (['D'] + (['E'] + (['F'] + (['G'] + (['H'] + (['I'] + (['J'] + (['K'] + (['L'] + (['M'] + (['N'] + [])))))))))))))
  }

  /** The documentation's first predicate: nodes A, C, H, D and K. */
  predicate MatchesFirst(node: char)
  {
    node == 'A' || node == 'C' || node == 'H' || node == 'D' || node == 'K'
  }

  /** The documentation's second predicate: nodes A, B, E and F. */
  predicate MatchesSecond(node: char)
  {
    node == 'A' || node == 'B' || node == 'E' || node == 'F'
  }

  /** The documentation's third predicate: nodes D, J, M and N. */
  predicate MatchesThird(node: char)
  {
    node == 'D' || node == 'J' || node == 'M' || node == 'N'
  }

  /** The documented order filtered by the first predicate. */
  lemma DocumentedFilterFirst()
    ensures Filter(MatchesFirst, DocumentedBreadthFirstOrder()) == ['A', 'C', 'D', 'H', 'K']
  {
    assert MatchesFirst('A');
    assert !MatchesFirst('B');
    assert MatchesFirst('C');
    assert MatchesFirst('D');
    assert !MatchesFirst('E');
    assert !MatchesFirst('F');
    assert !MatchesFirst('G');
    assert MatchesFirst('H');
    assert !MatchesFirst('I');
    assert !MatchesFirst('J');
    assert MatchesFirst('K');
    assert !MatchesFirst('L');
    assert !MatchesFirst('M');
    assert !MatchesFirst('N');
    FilterFourteen(MatchesFirst, 'A', 'B', 'C', 'D', 'E', 'F', 'G', 'H', 'I', 'J', 'K', 'L', 'M', 'N');
  }

  /** The documented order filtered by the second predicate. */
  lemma DocumentedFilterSecond()
    ensures Filter(MatchesSecond, DocumentedBreadthFirstOrder()) == ['A', 'B', 'E', 'F']
  {
    assert MatchesSecond('A');
    assert MatchesSecond('B');
    assert !MatchesSecond('C');
    assert !MatchesSecond('D');
    assert MatchesSecond('E');
    assert MatchesSecond('F');
    assert !MatchesSecond('G');
    assert !MatchesSecond('H');
    assert !MatchesSecond('I');
    assert !MatchesSecond('J');
    assert !MatchesSecond('K');
    assert !MatchesSecond('L');
    assert !MatchesSecond('M');
    assert !MatchesSecond('N');
    FilterFourteen(MatchesSecond, 'A', 'B', 'C', 'D', 'E', 'F', 'G', 'H', 'I', 'J', 'K', 'L', 'M', 'N');
  }

  /** The documented order filtered by the third predicate. */
  lemma DocumentedFilterThird()
    ensures Filter(MatchesThird, DocumentedBreadthFirstOrder()) == ['D', 'J', 'M', 'N']
  {
    assert !MatchesThird('A');
    assert !MatchesThird('B');
    assert !MatchesThird('C');
    assert MatchesThird('D');
    assert !MatchesThird('E');
    assert !MatchesThird('F');
    assert !MatchesThird('G');
    assert !MatchesThird('H');
    assert !MatchesThird('I');
    assert MatchesThird('J');
    assert !MatchesThird('K');
    assert !MatchesThird('L');
    assert MatchesThird('M');
    assert MatchesThird('N');
    FilterFourteen(MatchesThird, 'A', 'B', 'C', 'D', 'E', 'F', 'G', 'H', 'I', 'J', 'K', 'L', 'M', 'N');
  }

  /** With three predicates the iterator yields the matches of the first, then the second, then the third. */
  lemma PerPredicateOfThree<N>(order: seq<N>, p: N -> bool, q: N -> bool, r: N -> bool)
    ensures PerPredicate(order, [p, q, r]) == Filter(p, order) + Filter(q, order) + Filter(r, order)
  {
    assert [p, q, r][..2] == [p, q] && [p, q][..1] == [p] && [p][..0] == [];
    assert PerPredicate(order, [p]) == Filter(p, order);
    assert PerPredicate(order, [p, q]) == Filter(p, order) + Filter(q, order);
  }

  /**
   * The worked example of the facade's documentation: breadth first from A
   * with the three predicates, the iterator yields A C D H K, then A B E F,
   * then D J M N; A, matched by two predicates, appears twice.
   */
  lemma DocumentedPerPredicateExample()
    ensures PerPredicate(DocumentedBreadthFirstOrder(), [MatchesFirst, MatchesSecond, MatchesThird])
            == ['A', 'C', 'D', 'H', 'K'] + ['A', 'B', 'E', 'F'] + ['D', 'J', 'M', 'N']
  {
    PerPredicateOfThree(DocumentedBreadthFirstOrder(), MatchesFirst, MatchesSecond, MatchesThird);
    DocumentedFilterFirst();
    DocumentedFilterSecond();
    DocumentedFilterThird();
  }
}
