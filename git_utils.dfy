/**
 * The branch filter of TentaclePreview/git_utils.py: which of the
 * repository's branches get a worker. The branch list the repository
 * returns is an input.
 */
module GitUtils {
  import opened Wrappers

  /** A remote branch: its name and the commit it points at. */
  datatype Branch = Branch(name: string, sha: string)

  datatype FilterMode = Exclude | Include

  /** The `match filter_mode`: the two modes the function knows. */
  function ParseMode(mode: string): (m: Option<FilterMode>)
    ensures m == Some(Exclude) <==> mode == "exclude"
    ensures m == Some(Include) <==> mode == "include"
  {
    if mode == "exclude" then Some(Exclude)
    else if mode == "include" then Some(Include)
    else None
  }

  /** The `branch_filter` lambda of each mode. */
  predicate Keeps(mode: FilterMode, names: seq<string>, b: Branch) {
    match mode
    case Exclude => b.name !in names
    case Include => b.name in names
  }

  /** `list(filter(branch_filter, branches))` */
  function Select(branches: seq<Branch>, mode: FilterMode, names: seq<string>): (r: seq<Branch>)
    ensures |r| <= |branches|
    ensures forall b :: b in r <==> b in branches && Keeps(mode, names, b)
  {
    if branches == [] then []
    else (if Keeps(mode, names, branches[0]) then [branches[0]] else []) + Select(branches[1..], mode, names)
  }

  /** `a` is `b` with some elements left out and the rest in their order. */
  predicate IsSubsequence<T(==)>(a: seq<T>, b: seq<T>)
    decreases |b|
  {
    if a == [] then true
    else if b == [] then false
    else if a[0] == b[0] then IsSubsequence(a[1..], b[1..])
    else IsSubsequence(a, b[1..])
  }

  /**
   * `get_filtered_github_repo_branches`: with no filter list (None or
   * empty) every branch, whatever the mode; with one, an unknown mode is a
   * ValueError and a known one keeps the branches its lambda accepts.
   */
  function FilterBranches(branches: seq<Branch>, mode: string, filter: Option<seq<string>>): (r: Result<seq<Branch>, string>)
    ensures (filter.None? || filter.value == []) ==> r == Success(branches)
    ensures filter.Some? && filter.value != [] ==> (r.Failure? <==> ParseMode(mode).None?)
    ensures r.Failure? ==> r.error == "Invalid filter mode: " + mode
  {
    if filter.None? || filter.value == [] then Success(branches)
    else match ParseMode(mode)
      case None => Failure("Invalid filter mode: " + mode)
      case Some(m) => Success(Select(branches, m, filter.value))
  }

  lemma {:induction false} SelectIsSubsequence(branches: seq<Branch>, mode: FilterMode, names: seq<string>)
    ensures IsSubsequence(Select(branches, mode, names), branches)
    decreases |branches|
  {
    if branches != [] {
      var rest := Select(branches[1..], mode, names);
      SelectIsSubsequence(branches[1..], mode, names);
      if Keeps(mode, names, branches[0]) {
        assert Select(branches, mode, names) == [branches[0]] + rest;
        assert ([branches[0]] + rest)[1..] == rest;
      } else {
        assert Select(branches, mode, names) == rest;
        SkipHead(rest, branches);
      }
    }
  }

  /** A subsequence of the tail is a subsequence of the whole. */
  lemma {:induction false} SkipHead<T>(a: seq<T>, b: seq<T>)
    requires b != [] && IsSubsequence(a, b[1..])
    ensures IsSubsequence(a, b)
    decreases |b|, 0
  {
    if a != [] && a[0] == b[0] {
      DropHead(a, b[1..]);
    }
  }

  /** Leaving out the first element keeps a subsequence. */
  lemma {:induction false} DropHead<T>(a: seq<T>, b: seq<T>)
    requires a != [] && IsSubsequence(a, b)
    ensures IsSubsequence(a[1..], b)
    decreases |b|, 1
  {
    if a[1..] != [] {
      if a[0] == b[0] {
        SkipHead(a[1..], b);
      } else {
        DropHead(a, b[1..]);
        SkipHead(a[1..], b);
      }
    }
  }

  /**
   * The result is always the input branches in their order with some left
   * out; in "exclude" mode exactly those not named, in "include" mode
   * exactly those named.
   */
  lemma FilteredBranches(branches: seq<Branch>, mode: string, names: seq<string>)
    requires names != []
    ensures FilterBranches(branches, mode, Some(names)).Success? ==>
      IsSubsequence(FilterBranches(branches, mode, Some(names)).value, branches)
    ensures mode == "exclude" ==> FilterBranches(branches, mode, Some(names)).Success?
    ensures mode == "exclude" ==>
      forall b :: b in FilterBranches(branches, mode, Some(names)).value <==> b in branches && b.name !in names
    ensures mode == "include" ==> FilterBranches(branches, mode, Some(names)).Success?
    ensures mode == "include" ==>
      forall b :: b in FilterBranches(branches, mode, Some(names)).value <==> b in branches && b.name in names
  {
    if ParseMode(mode).Some? {
      SelectIsSubsequence(branches, ParseMode(mode).value, names);
    }
  }

  /**
   * For the same filter list the two modes split the branches: every branch
   * lands in exactly one of the results, as often as it occurs.
   */
  lemma {:induction false} ModesPartition(branches: seq<Branch>, names: seq<string>)
    ensures multiset(Select(branches, Include, names)) + multiset(Select(branches, Exclude, names)) == multiset(branches)
    ensures |Select(branches, Include, names)| + |Select(branches, Exclude, names)| == |branches|
    decreases |branches|
  {
    if branches != [] {
      ModesPartition(branches[1..], names);
      assert branches == [branches[0]] + branches[1..];
    }
  }
}
