/**
 * `pbrx siblings`: installs source checkouts of a project's dependencies (its siblings) in
 * place of the released versions in the current Python environment.
 *
 * The file system is a map from paths (as the program spells them) to file contents; pip and
 * `setup.py` are commands run through a `Runner` whose replies are an oracle. The working set of
 * installed distributions, `os.path.abspath`, the `metadata.name` lookup of `configparser` and the
 * name `tempfile` picks are parts of the environment `Env`.
 */
module Siblings {
  import opened Text
  import opened Commands

  // ---------------------------------------------------------------------
  // Sequences: filtering and first match
  // ---------------------------------------------------------------------

  /** The elements of `s` that `keep` accepts, in order. */
  function Filter<T>(s: seq<T>, keep: T -> bool): (r: seq<T>)
    ensures |r| <= |s|
    decreases |s|
  {
    if s == [] then []
    else Filter(s[..|s| - 1], keep) + (if keep(s[|s| - 1]) then [s[|s| - 1]] else [])
  }

  /** Filtering one more element. */
  lemma FilterTake<T>(s: seq<T>, keep: T -> bool, i: nat)
    requires i < |s|
    ensures Filter(s[..i + 1], keep) == Filter(s[..i], keep) + (if keep(s[i]) then [s[i]] else [])
  {
    assert s[..i + 1][..i] == s[..i];
  }

  /** An element survives filtering iff it is in the sequence and accepted. */
  lemma {:induction false} FilterMember<T>(s: seq<T>, keep: T -> bool, x: T)
    ensures x in Filter(s, keep) <==> x in s && keep(x)
    decreases |s|
  {
    if s != [] {
      var init := s[..|s| - 1];
      FilterMember(init, keep, x);
      assert s == init + [s[|s| - 1]];
    }
  }

  /** Filtering keeps the order: it distributes over concatenation. */
  lemma {:induction false} FilterAppend<T>(a: seq<T>, b: seq<T>, keep: T -> bool)
    ensures Filter(a + b, keep) == Filter(a, keep) + Filter(b, keep)
    decreases |b|
  {
    if b == [] {
      assert a + b == a;
    } else {
      var init := b[..|b| - 1];
      var last := b[|b| - 1];
      FilterAppend(a, init, keep);
      assert (a + b)[..|a + b| - 1] == a + init;
      assert (a + b)[|a + b| - 1] == last;
      calc {
        Filter(a + b, keep);
        Filter(a + init, keep) + (if keep(last) then [last] else []);
        Filter(a, keep) + Filter(init, keep) + (if keep(last) then [last] else []);
        { AppendAssoc(Filter(a, keep), Filter(init, keep), if keep(last) then [last] else []); }
        Filter(a, keep) + (Filter(init, keep) + (if keep(last) then [last] else []));
      }
    }
  }

  /** Everything kept is an accepted element of the sequence. */
  lemma FilterKeeps<T>(s: seq<T>, keep: T -> bool)
    ensures forall x :: x in Filter(s, keep) ==> x in s && keep(x)
  {
    forall x | x in Filter(s, keep) {
      FilterMember(s, keep, x);
    }
  }

  /** What a prefix keeps is a prefix of what the whole keeps. */
  lemma {:induction false} FilterPrefix<T>(s: seq<T>, keep: T -> bool, i: nat)
    requires i <= |s|
    ensures Filter(s[..i], keep) <= Filter(s, keep)
  {
    var front, back := s[..i], s[i..];
    assert front + back == s;
    FilterAppend(front, back, keep);
    PrefixOfAppend(Filter(front, keep), Filter(back, keep));
  }

  lemma PrefixOfAppend<T>(a: seq<T>, b: seq<T>)
    ensures a <= a + b
  {
    assert (a + b)[..|a|] == a;
  }

  /** One more element of a filtering loop: what is kept so far, still a prefix of what is kept in all. */
  lemma FilterNext<T>(s: seq<T>, keep: T -> bool, i: nat, kept: seq<T>)
    requires i < |s| && kept == Filter(s[..i], keep)
    ensures Filter(s[..i + 1], keep) == if keep(s[i]) then kept + [s[i]] else kept
    ensures Filter(s[..i + 1], keep) <= Filter(s, keep)
  {
    FilterTake(s, keep, i);
    FilterPrefix(s, keep, i + 1);
  }

  /** The first element of `s` that satisfies `p`, as a `for ... break` loop finds it. */
  function First<T>(s: seq<T>, p: T -> bool): Option<T>
    decreases |s|
  {
    if s == [] then None else if p(s[0]) then Some(s[0]) else First(s[1..], p)
  }

  /** The first match is the element at the least index that satisfies `p`. */
  lemma {:induction false} FirstAt<T>(s: seq<T>, p: T -> bool, k: nat)
    requires k < |s| && p(s[k]) && forall j :: 0 <= j < k ==> !p(s[j])
    ensures First(s, p) == Some(s[k])
    decreases k
  {
    if k > 0 {
      assert !p(s[0]);
      FirstAt(s[1..], p, k - 1);
    }
  }

  /** Nothing matches iff there is no first match. */
  lemma {:induction false} FirstNone<T>(s: seq<T>, p: T -> bool)
    ensures First(s, p) == None <==> forall j :: 0 <= j < |s| ==> !p(s[j])
    decreases |s|
  {
    if s != [] {
      FirstNone(s[1..], p);
      if !p(s[0]) {
        forall j | 1 <= j < |s| ensures s[j] == s[1..][j - 1] { }
      }
    }
  }

  // ---------------------------------------------------------------------
  // The environment
  // ---------------------------------------------------------------------

  /** An installed distribution of `pkg_resources.working_set`. */
  datatype Dist = Dist(projectName: string, location: string)

  /**
   * A key of the packages dictionary: `None` for a `setup.cfg` without a name, a `str` name
   * read from `setup.cfg`, or the `bytes` that `setup.py --name` printed, which never equal a
   * `str`.
   */
  datatype Key = NoName | Name(name: string) | Raw(bytes: string)

  /**
   * What the program reads of its surroundings besides files and commands: the interpreter,
   * `os.path.abspath`, the `metadata.name` that `configparser` finds in a text (`None` when it
   * raises), the working set, and the path `tempfile` gives the new constraints file.
   */
  datatype Env = Env(python: string, absolute: string -> string, metadataName: string -> Option<string>,
                     workingSet: seq<Dist>, constraintsTmp: string)

  /** The files of the host, by path. */
  class FileSystem {
    var files: map<string, string>

    constructor (files: map<string, string>)
      ensures this.files == files
    {
      this.files := files;
    }

    /** Creates or overwrites a file. */
    method Write(path: string, text: string)
      modifies this
      ensures files == old(files)[path := text]
    {
      files := files[path := text];
    }

    /** `os.unlink`. */
    method Unlink(path: string)
      modifies this
      ensures files == old(files) - {path}
    {
      files := files - {path};
    }
  }

  /** `get_package_name`: `metadata.name` of a `setup.cfg`, or `None` when there is none to read. */
  function GetPackageName(files: map<string, string>, path: string, metadataName: string -> Option<string>)
    : (r: Option<string>)
    ensures path !in files ==> r == None
    ensures path in files ==> r == metadataName(files[path])
  {
    if path in files then metadataName(files[path]) else None
  }

  /** Python truthiness of an optional string. */
  predicate Truthy(name: Option<string>)
  {
    name.Some? && name.value != ""
  }

  /** The dictionary key a `get_package_name` result is stored under. */
  function KeyOf(name: Option<string>): Key
  {
    if name.Some? then Name(name.value) else NoName
  }

  /** The names of the installed distributions, in working-set order. */
  function Installed(ws: seq<Dist>): (r: seq<string>)
    ensures |r| == |ws| && forall i :: 0 <= i < |ws| ==> r[i] == ws[i].projectName
  {
    seq(|ws|, i requires 0 <= i < |ws| => ws[i].projectName)
  }

  // ---------------------------------------------------------------------
  // get_siblings
  // ---------------------------------------------------------------------

  function CfgPath(env: Env, root: string): string
  {
    PathJoin(env.absolute(root), "setup.cfg")
  }

  function PyPath(env: Env, root: string): string
  {
    PathJoin(env.absolute(root), "setup.py")
  }

  /** The name a checkout's `setup.cfg` gives, `None` when it has none. */
  function CfgName(env: Env, files: map<string, string>, root: string): Option<string>
  {
    if CfgPath(env, root) in files then GetPackageName(files, CfgPath(env, root), env.metadataName) else None
  }

  /** A checkout whose `setup.cfg` gives no usable name but that has a `setup.py` is asked for its name. */
  predicate RunsSetupPy(env: Env, files: map<string, string>, root: string)
  {
    !Truthy(CfgName(env, files, root)) && PyPath(env, root) in files
  }

  /** `python setup.py --name`, run in the checkout. */
  function NameArgv(python: string): Argv
  {
    [python, "setup.py", "--name"]
  }

  /**
   * The dictionary stores one checkout makes, in order: its `setup.cfg` name (possibly `None`)
   * when it has a `setup.cfg`, then, when it runs `setup.py --name` and that prints something,
   * the stripped output.
   */
  function RootEntries(env: Env, files: map<string, string>, root: string, reply: Reply): seq<(Key, string)>
  {
    var abs := env.absolute(root);
    (if CfgPath(env, root) in files then [(KeyOf(CfgName(env, files, root)), abs)] else [])
    + (if RunsSetupPy(env, files, root) && reply.stdout != "" then [(Raw(StripBytes(reply.stdout)), abs)] else [])
  }

  /** How many commands a run of checkouts issues, `weight(root)` for each. */
  function Weight(roots: seq<string>, weight: string -> nat): nat
    decreases |roots|
  {
    if roots == [] then 0 else Weight(roots[..|roots| - 1], weight) + weight(roots[|roots| - 1])
  }

  /**
   * What a run of checkouts contributes, in order: `part(root, pos)` for each, where `pos` is the
   * position of the checkout's first command when those of the earlier checkouts are issued from `n`.
   */
  function Gather<E>(roots: seq<string>, part: (string, nat) -> seq<E>, weight: string -> nat, n: nat): seq<E>
    decreases |roots|
  {
    if roots == [] then []
    else
      var init := roots[..|roots| - 1];
      Gather(init, part, weight, n) + part(roots[|roots| - 1], n + Weight(init, weight))
  }

  /** One more checkout. */
  lemma GatherStep<E>(roots: seq<string>, part: (string, nat) -> seq<E>, weight: string -> nat, n: nat, i: nat)
    requires i < |roots|
    ensures Weight(roots[..i + 1], weight) == Weight(roots[..i], weight) + weight(roots[i])
    ensures Gather(roots[..i + 1], part, weight, n)
         == Gather(roots[..i], part, weight, n) + part(roots[i], n + Weight(roots[..i], weight))
  {
    assert roots[..i + 1][..i] == roots[..i];
  }

  /** `GatherStep`, with the position and the stores of the new checkout named. */
  lemma GatherStepAt<E>(roots: seq<string>, part: (string, nat) -> seq<E>, weight: string -> nat, n: nat, i: nat,
                        pos: nat, stores: seq<E>)
    requires i < |roots|
    requires pos == n + Weight(roots[..i], weight)
    requires stores == part(roots[i], pos)
    ensures Gather(roots[..i + 1], part, weight, n) == Gather(roots[..i], part, weight, n) + stores
  {
    GatherStep(roots, part, weight, n, i);
  }

  /** The commands of a prefix of the checkouts are at most those of all of them. */
  lemma {:induction false} WeightPrefix(roots: seq<string>, weight: string -> nat, i: nat)
    requires i <= |roots|
    ensures Weight(roots[..i], weight) <= Weight(roots, weight)
    decreases |roots|
  {
    if i == |roots| {
      assert roots[..i] == roots;
    } else {
      var init := roots[..|roots| - 1];
      WeightPrefix(init, weight, i);
      assert init[..i] == roots[..i];
    }
  }

  /** The position of the first command of checkout `j`: after those of the checkouts before it. */
  function Pos(roots: seq<string>, weight: string -> nat, n: nat, j: nat): nat
    requires j <= |roots|
  {
    n + Weight(roots[..j], weight)
  }

  /** What checkout `j` contributes, at the position after the earlier checkouts' commands, is gathered. */
  lemma {:induction false} GatherFrom<E>(roots: seq<string>, part: (string, nat) -> seq<E>, weight: string -> nat,
                                         n: nat, e: E, j: nat)
    requires j < |roots| && e in part(roots[j], Pos(roots, weight, n, j))
    ensures e in Gather(roots, part, weight, n)
    decreases |roots|
  {
    var init := roots[..|roots| - 1];
    assert roots[..|init|] == init;
    if j < |init| {
      assert init[..j] == roots[..j] && init[j] == roots[j];
      GatherFrom(init, part, weight, n, e, j);
    }
  }

  /** Everything gathered comes from some checkout, at the position after the earlier checkouts' commands. */
  lemma {:induction false} GatherOnly<E>(roots: seq<string>, part: (string, nat) -> seq<E>, weight: string -> nat,
                                         n: nat, e: E)
    requires e in Gather(roots, part, weight, n)
    ensures exists j {:trigger Pos(roots, weight, n, j)} ::
              0 <= j < |roots| && e in part(roots[j], Pos(roots, weight, n, j))
    decreases |roots|
  {
    var init := roots[..|roots| - 1];
    var last := |init|;
    assert roots[..last] == init;
    if e in Gather(init, part, weight, n) {
      GatherOnly(init, part, weight, n, e);
      var j :| 0 <= j < |init| && e in part(init[j], Pos(init, weight, n, j));
      assert init[..j] == roots[..j] && init[j] == roots[j];
      assert e in part(roots[j], Pos(roots, weight, n, j));
    } else {
      assert e in part(roots[last], Pos(roots, weight, n, last));
    }
  }

  /** Everything gathered comes from one checkout, at the position after the earlier checkouts' commands. */
  lemma GatherMember<E>(roots: seq<string>, part: (string, nat) -> seq<E>, weight: string -> nat, n: nat, e: E)
    ensures e in Gather(roots, part, weight, n) <==>
              exists j {:trigger Pos(roots, weight, n, j)} ::
                0 <= j < |roots| && e in part(roots[j], Pos(roots, weight, n, j))
  {
    if e in Gather(roots, part, weight, n) {
      GatherOnly(roots, part, weight, n, e);
    }
    if exists j {:trigger Pos(roots, weight, n, j)} ::
         0 <= j < |roots| && e in part(roots[j], Pos(roots, weight, n, j)) {
      var j :| 0 <= j < |roots| && e in part(roots[j], Pos(roots, weight, n, j));
      GatherFrom(roots, part, weight, n, e, j);
    }
  }

  /** One run of `setup.py --name` for a checkout that needs it. */
  function SetupPyRuns(env: Env, files: map<string, string>): string -> nat
  {
    (root: string) => if RunsSetupPy(env, files, root) then 1 else 0
  }

  /** The stores of a checkout whose `setup.py` run, if any, is answered at `pos`. */
  function RootStores(env: Env, files: map<string, string>, replies: nat -> Reply): (string, nat) -> seq<(Key, string)>
  {
    (root: string, pos: nat) => RootEntries(env, files, root, replies(pos))
  }

  /** How many of the checkouts run `setup.py --name`. */
  function Calls(env: Env, files: map<string, string>, roots: seq<string>): nat
  {
    Weight(roots, SetupPyRuns(env, files))
  }

  /** The dictionary stores of a list of checkouts, the `setup.py` runs answered from position `n`. */
  function Entries(env: Env, files: map<string, string>, roots: seq<string>, replies: nat -> Reply, n: nat)
    : seq<(Key, string)>
  {
    Gather(roots, RootStores(env, files, replies), SetupPyRuns(env, files), n)
  }

  /** A dictionary after a sequence of stores. */
  function Apply(m: map<Key, string>, es: seq<(Key, string)>): map<Key, string>
    decreases |es|
  {
    if es == [] then m else Apply(m, es[..|es| - 1])[es[|es| - 1].0 := es[|es| - 1].1]
  }

  /** Storing two runs of entries is storing their concatenation. */
  lemma {:induction false} ApplyConcat(m: map<Key, string>, a: seq<(Key, string)>, b: seq<(Key, string)>)
    ensures Apply(m, a + b) == Apply(Apply(m, a), b)
    decreases |b|
  {
    if b == [] {
      assert a + b == a;
    } else {
      ApplyConcat(m, a, b[..|b| - 1]);
      assert (a + b)[..|a + b| - 1] == a + b[..|b| - 1];
    }
  }

  /** A single store. */
  lemma ApplyOne(m: map<Key, string>, e: (Key, string))
    ensures Apply(m, [e]) == m[e.0 := e.1]
  {
    assert [e][..0] == [];
  }

  /** A key is present iff it was there or some entry stores it, and the last store of it wins. */
  lemma {:induction false} ApplySpec(m: map<Key, string>, es: seq<(Key, string)>, k: Key)
    ensures k in Apply(m, es) <==> k in m || exists i :: 0 <= i < |es| && es[i].0 == k
    ensures forall i :: 0 <= i < |es| && es[i].0 == k && (forall j :: i < j < |es| ==> es[j].0 != k) ==>
              k in Apply(m, es) && Apply(m, es)[k] == es[i].1
    ensures (forall i :: 0 <= i < |es| ==> es[i].0 != k) && k in m ==> Apply(m, es)[k] == m[k]
    decreases |es|
  {
    if es != [] {
      var init := es[..|es| - 1];
      ApplySpec(m, init, k);
      if exists i :: 0 <= i < |es| && es[i].0 == k {
        var i :| 0 <= i < |es| && es[i].0 == k;
        if i < |init| { assert init[i].0 == k; }
      }
    }
  }

  /** One more checkout: one more `setup.py` run when it needs one. */
  lemma CallsStep(env: Env, files: map<string, string>, roots: seq<string>, i: nat)
    requires i < |roots|
    ensures Calls(env, files, roots[..i + 1])
         == Calls(env, files, roots[..i]) + (if RunsSetupPy(env, files, roots[i]) then 1 else 0)
    ensures Calls(env, files, roots[..i + 1]) <= Calls(env, files, roots)
  {
    GatherStep<int>(roots, (r: string, k: nat) => [], SetupPyRuns(env, files), 0, i);
    WeightPrefix(roots, SetupPyRuns(env, files), i + 1);
  }

  /** One more checkout: its stores follow, its `setup.py` run answered after those of the earlier checkouts. */
  lemma EntriesStep(env: Env, files: map<string, string>, roots: seq<string>, replies: nat -> Reply, n: nat, i: nat)
    requires i < |roots|
    ensures Entries(env, files, roots[..i + 1], replies, n)
         == Entries(env, files, roots[..i], replies, n)
            + RootEntries(env, files, roots[i], replies(n + Calls(env, files, roots[..i])))
  {
    var part, weight := RootStores(env, files, replies), SetupPyRuns(env, files);
    var pos := n + Weight(roots[..i], weight);
    var stores := RootEntries(env, files, roots[i], replies(pos));
    assert part(roots[i], pos) == stores;
    GatherStepAt(roots, part, weight, n, i, pos, stores);
  }

  /** The dictionary after one more checkout. */
  lemma ScanAfter(env: Env, files: map<string, string>, roots: seq<string>, replies: nat -> Reply, n: nat, i: nat,
                  pos: nat, before: map<Key, string>, after: map<Key, string>)
    requires i < |roots| && pos == n + Calls(env, files, roots[..i])
    requires before == Apply(map[], Entries(env, files, roots[..i], replies, n))
    requires after == Apply(before, RootEntries(env, files, roots[i], replies(pos)))
    ensures after == Apply(map[], Entries(env, files, roots[..i + 1], replies, n))
  {
    EntriesStep(env, files, roots, replies, n, i);
    ApplyConcat(map[], Entries(env, files, roots[..i], replies, n),
                RootEntries(env, files, roots[i], replies(n + Calls(env, files, roots[..i]))));
  }

  /** A checkout with a `setup.cfg` is recorded under the name it reads there, even when that is `None`. */
  lemma CfgRecorded(env: Env, files: map<string, string>, roots: seq<string>, replies: nat -> Reply, n: nat, j: nat)
    requires j < |roots| && CfgPath(env, roots[j]) in files
    ensures KeyOf(CfgName(env, files, roots[j])) in Apply(map[], Entries(env, files, roots, replies, n))
  {
    var weight := SetupPyRuns(env, files);
    var e := (KeyOf(CfgName(env, files, roots[j])), env.absolute(roots[j]));
    var stores := RootEntries(env, files, roots[j], replies(Pos(roots, weight, n, j)));
    assert stores[0] == e;
    assert e in RootStores(env, files, replies)(roots[j], Pos(roots, weight, n, j));
    GatherMember(roots, RootStores(env, files, replies), weight, n, e);
    var es := Entries(env, files, roots, replies, n);
    var i :| 0 <= i < |es| && es[i] == e;
    ApplySpec(map[], es, e.0);
  }

  /** A `bytes` key comes only from a checkout without a usable `setup.cfg` name whose `setup.py`
    * printed something: it is that output, stripped. */
  lemma SetupPyRecorded(env: Env, files: map<string, string>, roots: seq<string>, replies: nat -> Reply,
                        n: nat, b: string)
    requires Raw(b) in Apply(map[], Entries(env, files, roots, replies, n))
    ensures exists j {:trigger Pos(roots, SetupPyRuns(env, files), n, j)} ::
              && 0 <= j < |roots| && RunsSetupPy(env, files, roots[j])
              && replies(Pos(roots, SetupPyRuns(env, files), n, j)).stdout != ""
              && b == StripBytes(replies(Pos(roots, SetupPyRuns(env, files), n, j)).stdout)
  {
    var weight := SetupPyRuns(env, files);
    var es := Entries(env, files, roots, replies, n);
    ApplySpec(map[], es, Raw(b));
    var i :| 0 <= i < |es| && es[i].0 == Raw(b);
    GatherOnly(roots, RootStores(env, files, replies), weight, n, es[i]);
    var j :| 0 <= j < |roots| && es[i] in RootStores(env, files, replies)(roots[j], Pos(roots, weight, n, j));
    var reply := replies(Pos(roots, weight, n, j));
    assert es[i] in RootEntries(env, files, roots[j], reply);
    RawFromRoot(env, files, roots[j], reply, es[i], b);
  }

  /** A `bytes` entry of one checkout comes from its `setup.py` run, which printed something. */
  lemma RawFromRoot(env: Env, files: map<string, string>, root: string, reply: Reply, e: (Key, string), b: string)
    requires e in RootEntries(env, files, root, reply) && e.0 == Raw(b)
    ensures RunsSetupPy(env, files, root) && reply.stdout != "" && b == StripBytes(reply.stdout)
  {
  }

  // ---------------------------------------------------------------------
  // write_new_constraints_file
  // ---------------------------------------------------------------------

  /** The package a constraints line is about: the text before its first `===`. */
  function ConstraintName(line: string): string
  {
    Split(line, "===")[0]
  }

  /** Whether a constraints line survives: its package is not a sibling. */
  function KeepsConstraint(packages: map<Key, string>): string -> bool
  {
    (line: string) => Name(ConstraintName(line)) !in packages
  }

  /** Lines written one after the other, each followed by a newline. */
  function Lines(ls: seq<string>): string
    decreases |ls|
  {
    if ls == [] then [] else ls[0] + "\n" + Lines(ls[1..])
  }

  lemma {:induction false} LinesAppend(ls: seq<string>, x: string)
    ensures Lines(ls + [x]) == Lines(ls) + x + "\n"
    decreases |ls|
  {
    if ls != [] {
      LinesAppend(ls[1..], x);
      assert (ls + [x])[1..] == ls[1..] + [x];
    }
  }

  /** The new constraints file for an old one: the lines about other packages. */
  function ConstraintsText(text: string, packages: map<Key, string>): string
  {
    Lines(Filter(Split(text, "\n"), KeepsConstraint(packages)))
  }

  /** A line without a newline, a newline, then more text: the line is the first piece. */
  lemma {:induction false} SplitAfterLine(a: string, b: string)
    requires '\n' !in a
    ensures Split(a + "\n" + b, "\n") == [a] + Split(b, "\n")
    decreases |a|
  {
    var s := a + "\n" + b;
    if a == [] {
      assert s[..1] == "\n" && s[1..] == b;
    } else {
      assert s[..1] == [a[0]] && s[1..] == a[1..] + "\n" + b;
      SplitAfterLine(a[1..], b);
      assert [a[0]] + a[1..] == a;
    }
  }

  /** The pieces of a split on a character do not contain it. */
  lemma {:induction false} SplitNoSeparator(s: string, c: char)
    ensures forall i :: 0 <= i < |Split(s, [c])| ==> c !in Split(s, [c])[i]
    decreases |s|
  {
    if |s| >= 1 {
      SplitNoSeparator(s[1..], c);
    }
  }

  /** Splitting newline-terminated lines gives them back, followed by an empty piece. */
  lemma {:induction false} SplitLines(ls: seq<string>)
    requires forall i :: 0 <= i < |ls| ==> '\n' !in ls[i]
    ensures Split(Lines(ls), "\n") == ls + [""]
    decreases |ls|
  {
    if ls != [] {
      SplitLines(ls[1..]);
      SplitAfterLine(ls[0], Lines(ls[1..]));
    }
  }

  /** Reading the new constraints file the way the old one was read gives exactly the lines kept,
    * in their order, then the empty piece after the last newline. */
  lemma ConstraintsRoundTrip(text: string, packages: map<Key, string>)
    ensures Split(ConstraintsText(text, packages), "\n")
         == Filter(Split(text, "\n"), KeepsConstraint(packages)) + [""]
  {
    var lines := Split(text, "\n");
    var kept := Filter(lines, KeepsConstraint(packages));
    SplitNoSeparator(text, '\n');
    forall i | 0 <= i < |kept| ensures '\n' !in kept[i] {
      FilterMember(lines, KeepsConstraint(packages), kept[i]);
    }
    SplitLines(kept);
  }

  /** A line of the new constraints file is the empty piece after its last newline or a line of the old
    * file about a package that is not a sibling; every such line of the old file is there. */
  lemma ConstraintsDropSiblings(text: string, packages: map<Key, string>, line: string)
    ensures line in Split(ConstraintsText(text, packages), "\n")
            <==> line == "" || (line in Split(text, "\n") && Name(ConstraintName(line)) !in packages)
  {
    ConstraintsRoundTrip(text, packages);
    FilterMember(Split(text, "\n"), KeepsConstraint(packages), line);
    if line == "" {
      var kept := Filter(Split(text, "\n"), KeepsConstraint(packages));
      assert (kept + [""])[|kept|] == "";
    }
  }

  // ---------------------------------------------------------------------
  // find_sibling_packages, clean_depends, process
  // ---------------------------------------------------------------------

  /** Whether an installed package is a sibling: not the project itself, and a key of the dictionary. */
  function IsSiblingOf(self: string, packages: map<Key, string>): string -> bool
  {
    (x: string) => x != self && Name(x) in packages
  }

  /** The siblings among the installed packages, in working-set order. */
  function SiblingNames(installed: seq<string>, self: string, packages: map<Key, string>): (r: seq<string>)
    ensures forall x :: x in r ==> x in installed && x != self && Name(x) in packages
  {
    FilterKeeps(installed, IsSiblingOf(self, packages));
    Filter(installed, IsSiblingOf(self, packages))
  }

  /** A package is a sibling iff it is installed, is not the project, and was found among the checkouts
    * under a `str` name. */
  lemma SiblingNamesSpec(installed: seq<string>, self: string, packages: map<Key, string>, x: string)
    ensures x in SiblingNames(installed, self, packages) <==> x in installed && x != self && Name(x) in packages
  {
    FilterMember(installed, IsSiblingOf(self, packages), x);
  }

  /** `pip uninstall -y <name>` for each sibling, in order. */
  function Uninstalls(python: string, sibs: seq<string>): (r: seq<Argv>)
    ensures |r| == |sibs| && forall i :: 0 <= i < |sibs| ==> r[i] == PipArgv(python, ["uninstall", "-y", sibs[i]])
  {
    seq(|sibs|, i requires 0 <= i < |sibs| => PipArgv(python, ["uninstall", "-y", sibs[i]]))
  }

  /** The checkout of each sibling, in order. */
  function Locations(sibs: seq<string>, packages: map<Key, string>): (r: seq<string>)
    requires forall s :: s in sibs ==> Name(s) in packages
    ensures |r| == |sibs| && forall i :: 0 <= i < |sibs| ==> r[i] == packages[Name(sibs[i])]
  {
    seq(|sibs|, i requires 0 <= i < |sibs| => packages[Name(sibs[i])])
  }

  /** `pip install [-c <file>] -e <checkout> ...`. */
  function InstallArgs(constraintsFile: Option<string>, sibs: seq<string>, packages: map<Key, string>): seq<string>
    requires forall s :: s in sibs ==> Name(s) in packages
  {
    ["install"] + (if constraintsFile.Some? then ["-c", constraintsFile.value] else [])
    + FlagPairs("-e", Locations(sibs, packages))
  }

  /** The requirement a `requires.txt` line is replaced by: the first sibling it starts with. */
  function StartsWithName(line: string): string -> bool
  {
    (name: string) => StartsWith(line, name)
  }

  /** A `requires.txt` line as `clean_depends` writes it back. */
  function Rewrite(line: string, installed: seq<string>): string
  {
    match First(installed, StartsWithName(line))
    case Some(name) => name + "\n"
    case None => line
  }

  /** A line starting with a sibling name becomes the first such name alone; any other line is kept. */
  lemma RewriteSpec(line: string, installed: seq<string>, k: nat)
    ensures (forall j :: 0 <= j < |installed| ==> !StartsWith(line, installed[j])) ==> Rewrite(line, installed) == line
    ensures k < |installed| && StartsWith(line, installed[k]) && (forall j :: 0 <= j < k ==> !StartsWith(line, installed[j]))
            ==> Rewrite(line, installed) == installed[k] + "\n"
  {
    FirstNone(installed, StartsWithName(line));
    if k < |installed| && StartsWith(line, installed[k]) && (forall j :: 0 <= j < k ==> !StartsWith(line, installed[j])) {
      FirstAt(installed, StartsWithName(line), k);
    }
  }

  /** Every line rewritten, in order. */
  function RewriteAll(lines: seq<string>, installed: seq<string>): (r: seq<string>)
    ensures |r| == |lines| && forall i :: 0 <= i < |lines| ==> r[i] == Rewrite(lines[i], installed)
  {
    seq(|lines|, i requires 0 <= i < |lines| => Rewrite(lines[i], installed))
  }

  /** When no line names a sibling, `clean_depends` writes the file back as it was. */
  lemma RewriteNoMatch(text: string, installed: seq<string>)
    requires forall l, name :: l in ReadLines(text) && name in installed ==> !StartsWith(l, name)
    ensures Concat(RewriteAll(ReadLines(text), installed)) == text
  {
    var lines := ReadLines(text);
    forall i | 0 <= i < |lines| ensures Rewrite(lines[i], installed) == lines[i] {
      RewriteSpec(lines[i], installed, 0);
    }
    assert RewriteAll(lines, installed) == lines;
    ConcatReadLines(text);
  }

  /** The main project's distribution in the working set. */
  function IsProject(self: string): Dist -> bool
  {
    (d: Dist) => d.projectName == self
  }

  /** `get_requires_file`: `<location>/<project>.egg-info/requires.txt`. */
  function RequiresFile(d: Dist): string
  {
    PathJoin(PathJoin(d.location, d.projectName + ".egg-info"), "requires.txt")
  }

  /** The files after `clean_depends`: the main project's `requires.txt`, if it is installed and has one,
    * with every line rewritten. */
  function CleanedFiles(files: map<string, string>, ws: seq<Dist>, self: string, installed: seq<string>)
    : map<string, string>
  {
    match First(ws, IsProject(self))
    case None => files
    case Some(d) =>
      if RequiresFile(d) in files
      then files[RequiresFile(d) := Concat(RewriteAll(ReadLines(Universal(files[RequiresFile(d)])), installed))]
      else files
  }

  /** `clean_depends` touches at most one file, the main project's `requires.txt`, and creates none. */
  lemma CleanedFilesSpec(files: map<string, string>, ws: seq<Dist>, self: string, installed: seq<string>)
    ensures CleanedFiles(files, ws, self, installed).Keys == files.Keys
    ensures forall path :: path in files && (forall d :: First(ws, IsProject(self)) == Some(d) ==> path != RequiresFile(d))
                           ==> CleanedFiles(files, ws, self, installed)[path] == files[path]
    ensures forall d :: First(ws, IsProject(self)) == Some(d) && RequiresFile(d) in files ==>
              CleanedFiles(files, ws, self, installed)[RequiresFile(d)]
              == Concat(RewriteAll(ReadLines(Universal(files[RequiresFile(d)])), installed))
  {
  }

  /** A `requires.txt` with no line starting with a sibling's name is written back as it reads:
    * with its newlines translated, and so unchanged when it has no carriage return. */
  lemma CleanedNoMatch(files: map<string, string>, ws: seq<Dist>, self: string, installed: seq<string>)
    requires forall d, l, name ::
               (First(ws, IsProject(self)) == Some(d) && RequiresFile(d) in files
                && l in ReadLines(Universal(files[RequiresFile(d)])) && name in installed) ==> !StartsWith(l, name)
    ensures forall d :: First(ws, IsProject(self)) == Some(d) && RequiresFile(d) in files ==>
              CleanedFiles(files, ws, self, installed) == files[RequiresFile(d) := Universal(files[RequiresFile(d)])]
    ensures (forall d :: First(ws, IsProject(self)) == Some(d) && RequiresFile(d) in files ==>
               '\r' !in files[RequiresFile(d)])
            ==> CleanedFiles(files, ws, self, installed) == files
  {
    match First(ws, IsProject(self))
    case None =>
    case Some(d) =>
      if RequiresFile(d) in files {
        var text := files[RequiresFile(d)];
        RewriteNoMatch(Universal(text), installed);
        if '\r' !in text {
          UniversalPlain(text);
          assert files[RequiresFile(d) := text] == files;
        }
      }
  }

  /** Rewrites one line: the inner loop of `clean_depends`. */
  method RewriteLine(line: string, installed: seq<string>) returns (out: string)
    ensures out == Rewrite(line, installed)
  {
    for k := 0 to |installed|
      invariant forall j :: 0 <= j < k ==> !StartsWith(line, installed[j])
    {
      if StartsWith(line, installed[k]) {
        FirstAt(installed, StartsWithName(line), k);
        return installed[k] + "\n";
      }
    }
    FirstNone(installed, StartsWithName(line));
    out := line;
  }

  /** One more line of the constraints loop: written with its newline if it is kept. */
  lemma LinesStep(lines: seq<string>, keep: string -> bool, i: nat, before: string, after: string)
    requires i < |lines| && before == Lines(Filter(lines[..i], keep))
    requires after == if keep(lines[i]) then before + lines[i] + "\n" else before
    ensures after == Lines(Filter(lines[..i + 1], keep))
  {
    FilterTake(lines, keep, i);
    var front := Filter(lines[..i], keep);
    if keep(lines[i]) {
      assert Filter(lines[..i + 1], keep) == front + [lines[i]];
      LinesAppend(front, lines[i]);
    } else {
      assert Filter(lines[..i + 1], keep) == front;
    }
  }

  /** The loop of `write_new_constraints_file`: the lines of the old file whose package is not a key of
    * `packages`, each followed by a newline. */
  method KeptConstraints(text: string, packages: map<Key, string>) returns (out: string)
    ensures out == ConstraintsText(text, packages)
  {
    var lines := Split(text, "\n");
    ghost var keep := KeepsConstraint(packages);
    out := "";
    for i := 0 to |lines|
      invariant out == Lines(Filter(lines[..i], keep))
    {
      var line := lines[i];
      ghost var before := out;
      assert keep(line) == (Name(ConstraintName(line)) !in packages);
      if Name(ConstraintName(line)) !in packages {
        out := out + line + "\n";
      }
      LinesStep(lines, keep, i, before, out);
    }
    assert lines[..|lines|] == lines;
  }

  /** Runs the next command of a plan that has succeeded so far. */
  method RunPlanned(runner: Runner, argv: Argv, ghost plan: seq<Argv>, ghost log0: seq<Argv>, ghost i: nat)
    returns (r: Result<string>)
    requires i < |plan| && plan[i] == argv
    requires runner.log == log0 + plan[..i] && AllOk(runner.replies, |log0|, i)
    modifies runner
    ensures r.Ok? ==> runner.log == log0 + plan[..i + 1] && AllOk(runner.replies, |log0|, i + 1)
    ensures r.Err? ==> runner.log == log0 + Attempt(plan, runner.replies, |log0|)
                       && !AllOk(runner.replies, |log0|, |plan|)
    ensures ReportsLast(runner.log, runner.replies, r)
  {
    ghost var log1 := runner.log;
    r := runner.Run(argv);
    AttemptNext(plan, runner.replies, i, log0, log1, runner.log);
  }

  /** The command `cmd(x)` for each `x`, in order. */
  function Each(xs: seq<string>, cmd: string -> Argv): (r: seq<Argv>)
    ensures |r| == |xs| && forall i :: 0 <= i < |xs| ==> r[i] == cmd(xs[i])
  {
    seq(|xs|, i requires 0 <= i < |xs| => cmd(xs[i]))
  }

  /** One turn of the loop of `RunKept`: runs the command of `names[i]` when `keep` admits it. */
  method RunKeptNext(runner: Runner, names: seq<string>, keep: string -> bool, cmd: string -> Argv, i: nat,
                     found: seq<string>, ghost plan: seq<Argv>, ghost log0: seq<Argv>)
    returns (found': seq<string>, r: Result<()>)
    requires i < |names| && found == Filter(names[..i], keep) && found <= Filter(names, keep)
    requires plan == Each(Filter(names, keep), cmd)
    requires runner.log == log0 + plan[..|found|] && AllOk(runner.replies, |log0|, |found|)
    modifies runner
    ensures r.Ok? ==> && found' == Filter(names[..i + 1], keep) && found' <= Filter(names, keep)
                      && runner.log == log0 + plan[..|found'|] && AllOk(runner.replies, |log0|, |found'|)
    ensures r.Err? ==> && runner.log == log0 + Attempt(plan, runner.replies, |log0|)
                       && !AllOk(runner.replies, |log0|, |plan|)
    ensures ReportsLast(runner.log, runner.replies, r)
  {
    FilterNext(names, keep, i, found);
    found' := found;
    r := Ok(());
    if keep(names[i]) {
      assert found + [names[i]] <= Filter(names, keep);
      var out := RunPlanned(runner, cmd(names[i]), plan, log0, |found|);
      if out.Err? {
        r := Err(out.error);
        ReportsLastPassed(runner.log, runner.replies, out, r);
        return;
      }
      found' := found + [names[i]];
    }
  }

  /**
   * Runs `cmd(x)` for each `x` of `names` that `keep` admits, in order, and stops at the first
   * command that fails; on success, the admitted names.
   */
  method RunKept(runner: Runner, names: seq<string>, keep: string -> bool, cmd: string -> Argv)
    returns (r: Result<seq<string>>)
    modifies runner
    ensures var kept := Filter(names, keep);
            && runner.log == old(runner.log) + Attempt(Each(kept, cmd), runner.replies, |old(runner.log)|)
            && (r.Ok? <==> AllOk(runner.replies, |old(runner.log)|, |kept|))
            && (r.Ok? ==> r.value == kept)
    ensures ReportsLast(runner.log, runner.replies, r)
  {
    ghost var kept := Filter(names, keep);
    ghost var plan := Each(kept, cmd);
    ghost var log0 := runner.log;
    ghost var replies := runner.replies;
    var found: seq<string> := [];
    for i := 0 to |names|
      invariant found == Filter(names[..i], keep) && found <= kept
      invariant runner.log == log0 + plan[..|found|]
      invariant AllOk(replies, |log0|, |found|)
    {
      var step;
      found, step := RunKeptNext(runner, names, keep, cmd, i, found, plan, log0);
      if step.Err? {
        r := Err(step.error);
        ReportsLastPassed(runner.log, runner.replies, step, r);
        return;
      }
    }
    assert names[..|names|] == names;
    assert plan[..|found|] == plan;
    AttemptAll(plan, replies, log0, runner.log);
    r := Ok(found);
  }

  /**
   * The loop of `find_sibling_packages`: `pip uninstall -y` for each installed package, in
   * working-set order, that is not the project itself and was found among the checkouts; it stops
   * at the first uninstall that fails.
   */
  method UninstallSiblings(runner: Runner, python: string, names: seq<string>, self: string, packages: map<Key, string>)
    returns (r: Result<seq<string>>)
    modifies runner
    ensures var sibs := SiblingNames(names, self, packages);
            && runner.log == old(runner.log) + Attempt(Uninstalls(python, sibs), runner.replies, |old(runner.log)|)
            && (r.Ok? <==> AllOk(runner.replies, |old(runner.log)|, |sibs|))
            && (r.Ok? ==> r.value == sibs && runner.log == old(runner.log) + Uninstalls(python, sibs))
    ensures ReportsLast(runner.log, runner.replies, r)
  {
    ghost var log0 := runner.log;
    var uninstall := (name: string) => PipArgv(python, ["uninstall", "-y", name]);
    r := RunKept(runner, names, IsSiblingOf(self, packages), uninstall);
    ghost var sibs := SiblingNames(names, self, packages);
    assert Each(sibs, uninstall) == Uninstalls(python, sibs);
    if r.Ok? {
      AttemptPrefix(Uninstalls(python, sibs), runner.replies, |log0|);
    }
  }

  /** The search of `clean_depends` for the main project's distribution: the first with its name. */
  method FindProject(ws: seq<Dist>, self: string) returns (d: Option<Dist>)
    ensures d == First(ws, IsProject(self))
  {
    for i := 0 to |ws|
      invariant forall j :: 0 <= j < i ==> ws[j].projectName != self
    {
      if ws[i].projectName == self {
        FirstAt(ws, IsProject(self), i);
        return Some(ws[i]);
      }
    }
    FirstNone(ws, IsProject(self));
    d := None;
  }

  /** The rewriting loop of `clean_depends` over the lines of `requires.txt`. */
  method RewriteText(text: string, installed: seq<string>) returns (out: string)
    ensures out == Concat(RewriteAll(ReadLines(text), installed))
  {
    var lines := ReadLines(text);
    out := "";
    for i := 0 to |lines|
      invariant out == Concat(RewriteAll(lines[..i], installed))
    {
      var line := RewriteLine(lines[i], installed);
      assert RewriteAll(lines[..i + 1], installed) == RewriteAll(lines[..i], installed) + [line];
      ConcatAppend(RewriteAll(lines[..i], installed), line);
      out := out + line;
    }
    assert lines[..|lines|] == lines;
  }

  /** The checkouts of one more sibling. */
  lemma LocationsStep(sibs: seq<string>, packages: map<Key, string>, i: nat)
    requires i < |sibs| && forall s :: s in sibs ==> Name(s) in packages
    ensures FlagPairs("-e", Locations(sibs[..i + 1], packages))
         == FlagPairs("-e", Locations(sibs[..i], packages)) + ["-e", packages[Name(sibs[i])]]
  {
    var longer := Locations(sibs[..i + 1], packages);
    assert longer[..i] == Locations(sibs[..i], packages);
  }

  /** The loop of `process` over the yielded siblings: `-e <checkout>` for each, and the list of them. */
  method PackageArgs(sibs: seq<string>, packages: map<Key, string>) returns (args: seq<string>, installed: seq<string>)
    requires forall s :: s in sibs ==> Name(s) in packages
    ensures args == FlagPairs("-e", Locations(sibs, packages))
    ensures installed == sibs
  {
    args, installed := [], [];
    for i := 0 to |sibs|
      invariant args == FlagPairs("-e", Locations(sibs[..i], packages))
      invariant installed == sibs[..i]
    {
      LocationsStep(sibs, packages, i);
      args := args + ["-e", packages[Name(sibs[i])]];
      installed := installed + [sibs[i]];
    }
    assert sibs[..|sibs|] == sibs;
  }

  /** One checkout of `get_siblings`: stores its `setup.cfg` name, else the output of `setup.py --name`,
    * in the dictionary `packages`. */
  method ScanRoot(runner: Runner, env: Env, files: map<string, string>, root: string, packages: map<Key, string>)
    returns (r: Result<map<Key, string>>)
    modifies runner
    ensures runner.log == old(runner.log) + (if RunsSetupPy(env, files, root) then [NameArgv(env.python)] else [])
    ensures r.Err? <==> RunsSetupPy(env, files, root) && runner.replies(|old(runner.log)|).exitCode != 0
    ensures r.Ok? ==> r.value == Apply(packages, RootEntries(env, files, root, runner.replies(|old(runner.log)|)))
    ensures ReportsLast(runner.log, runner.replies, r)
  {
    var abs := env.absolute(root);
    var found: Option<string> := None;
    var stored := packages;
    var cfg := PathJoin(abs, "setup.cfg");
    ghost var fromCfg: seq<(Key, string)> := [];
    if cfg in files {
      found := GetPackageName(files, cfg, env.metadataName);
      stored := stored[KeyOf(found) := abs];
      fromCfg := [(KeyOf(found), abs)];
      ApplyOne(packages, fromCfg[0]);
    }
    ghost var middle := stored;
    ghost var fromPy: seq<(Key, string)> := [];
    if !Truthy(found) && PathJoin(abs, "setup.py") in files {
      var out := runner.Run(NameArgv(env.python));
      if out.Err? {
        r := Err(out.error);
        ReportsLastPassed(runner.log, runner.replies, out, r);
        return;
      }
      if out.value != "" {
        stored := stored[Raw(StripBytes(out.value)) := abs];
        fromPy := [(Raw(StripBytes(out.value)), abs)];
        ApplyOne(middle, fromPy[0]);
      }
    }
    ApplyConcat(packages, fromCfg, fromPy);
    assert RootEntries(env, files, root, runner.replies(|old(runner.log)|)) == fromCfg + fromPy;
    r := Ok(stored);
  }

  /** One turn of the loop of `get_siblings`: the next checkout, against the plan of the whole loop. */
  method ScanNext(runner: Runner, env: Env, files: map<string, string>, roots: seq<string>, i: nat,
                  packages: map<Key, string>, ghost plan: seq<Argv>, ghost log0: seq<Argv>, ghost pos: nat)
    returns (r: Result<map<Key, string>>)
    requires i < |roots| && plan == seq(Calls(env, files, roots), _ => NameArgv(env.python))
    requires Calls(env, files, roots[..i]) <= |plan| && runner.log == log0 + plan[..Calls(env, files, roots[..i])]
    requires AllOk(runner.replies, |log0|, Calls(env, files, roots[..i])) && pos == |log0| + Calls(env, files, roots[..i])
    modifies runner
    ensures r.Ok? ==> && Calls(env, files, roots[..i + 1]) <= |plan|
                      && runner.log == log0 + plan[..Calls(env, files, roots[..i + 1])]
                      && AllOk(runner.replies, |log0|, Calls(env, files, roots[..i + 1]))
                      && r.value == Apply(packages, RootEntries(env, files, roots[i], runner.replies(pos)))
    ensures r.Err? ==> && runner.log == log0 + Attempt(plan, runner.replies, |log0|)
                       && !AllOk(runner.replies, |log0|, |plan|)
    ensures ReportsLast(runner.log, runner.replies, r)
  {
    ghost var replies := runner.replies;
    ghost var c := Calls(env, files, roots[..i]);
    ghost var log1 := runner.log;
    assert |log1| == pos;
    CallsStep(env, files, roots, i);
    r := ScanRoot(runner, env, files, roots[i], packages);
    if RunsSetupPy(env, files, roots[i]) {
      assert r.Ok? <==> replies(pos).exitCode == 0;
      AttemptNext(plan, replies, c, log0, log1, runner.log);
    } else {
      assert Calls(env, files, roots[..i + 1]) == c;
    }
  }

  /** The loop of `get_siblings` over the checkouts, from an empty dictionary. */
  method ScanRoots(runner: Runner, env: Env, files: map<string, string>, roots: seq<string>)
    returns (r: Result<map<Key, string>>)
    modifies runner
    ensures runner.log == old(runner.log)
            + Attempt(seq(Calls(env, files, roots), _ => NameArgv(env.python)), runner.replies, |old(runner.log)|)
    ensures r.Ok? <==> AllOk(runner.replies, |old(runner.log)|, Calls(env, files, roots))
    ensures r.Ok? ==> r.value == Apply(map[], Entries(env, files, roots, runner.replies, |old(runner.log)|))
    ensures ReportsLast(runner.log, runner.replies, r)
  {
    var packages: map<Key, string> := map[];
    ghost var log0 := runner.log;
    ghost var replies := runner.replies;
    ghost var plan := seq(Calls(env, files, roots), _ => NameArgv(env.python));
    for i := 0 to |roots|
      invariant Calls(env, files, roots[..i]) <= |plan|
      invariant runner.log == log0 + plan[..Calls(env, files, roots[..i])]
      invariant AllOk(replies, |log0|, Calls(env, files, roots[..i]))
      invariant packages == Apply(map[], Entries(env, files, roots[..i], replies, |log0|))
    {
      ghost var pos := |log0| + Calls(env, files, roots[..i]);
      var step := ScanNext(runner, env, files, roots, i, packages, plan, log0, pos);
      if step.Err? {
        return Err(step.error);
      }
      ScanAfter(env, files, roots, replies, |log0|, i, pos, packages, step.value);
      packages := step.value;
    }
    assert roots[..|roots|] == roots;
    AttemptAll(plan, replies, log0, runner.log);
    r := Ok(packages);
  }

  /** A file created, overwritten and removed again leaves the other files as they were. */
  lemma WrittenThenRemoved(files: map<string, string>, path: string, first: string, second: string)
    ensures files[path := first][path := second] - {path} == files - {path}
  {
    var after := files[path := first][path := second] - {path};
    assert forall p :: p in after <==> p in files - {path};
  }

  /** What the tail of `process` does: the commands it issues, the files it leaves and its outcome. */
  datatype Effect = Effect(issued: seq<Argv>, files: map<string, string>, result: Result<()>)

  /**
   * The tail of `process` for siblings `sibs`, `reply` answering `pip install`: the temporary file is
   * created first; reading a missing constraints file raises; without constraints the `finally` clause
   * raises `UnboundLocalError`, hiding any pip failure; otherwise the temporary file is removed and, if
   * pip succeeded, `requires.txt` is cleaned.
   */
  function InstallEffect(env: Env, self: string, constraints: string, packages: map<Key, string>, sibs: seq<string>,
                         files: map<string, string>, reply: Reply): Effect
    requires forall s :: s in sibs ==> Name(s) in packages
  {
    var tmp := env.constraintsTmp;
    var created := files[tmp := ""];
    if constraints == "" then
      Effect([PipArgv(env.python, InstallArgs(None, sibs, packages))], files, Err(UnboundLocal("constraints_file")))
    else if constraints !in created then
      Effect([], created, Err(FileNotFound(constraints)))
    else
      var install := PipArgv(env.python, InstallArgs(Some(tmp), sibs, packages));
      var unlinked := files - {tmp};
      match Outcome(install, reply)
      case Ok(_) => Effect([install], CleanedFiles(unlinked, env.workingSet, self, sibs), Ok(()))
      case Err(e) => Effect([install], unlinked, Err(e))
  }

  /** The tail of `process` fails with a command's failure, with `UnboundLocalError` only without
    * constraints, and with a missing file only when the constraints file is missing. */
  lemma InstallErrors(env: Env, self: string, constraints: string, packages: map<Key, string>, sibs: seq<string>,
                      files: map<string, string>, reply: Reply)
    requires forall s :: s in sibs ==> Name(s) in packages
    ensures var r := InstallEffect(env, self, constraints, packages, sibs, files, reply).result;
            r.Err? ==> || r.error.CommandFailed?
                       || (r.error == UnboundLocal("constraints_file") && constraints == "")
                       || (r.error == FileNotFound(constraints) && constraints !in files)
  {
  }

  /**
   * What `process` does, its commands answered from position `n` on: the siblings are uninstalled in
   * order, the run stopping at the first failure; with no sibling nothing more happens; otherwise the
   * tail of `InstallEffect` follows.
   */
  function ProcessEffect(env: Env, self: string, constraints: string, packages: map<Key, string>,
                         files: map<string, string>, replies: nat -> Reply, n: nat): Effect
  {
    var sibs := SiblingNames(Installed(env.workingSet), self, packages);
    var plan := Uninstalls(env.python, sibs);
    if !AllOk(replies, n, |sibs|) then
      IssuedSpec(|plan|, replies, n);
      var issued := Attempt(plan, replies, n);
      var last := n + |issued| - 1;
      Effect(issued, files, Err(CommandFailed(issued[|issued| - 1], replies(last).exitCode, replies(last).stdout)))
    else if sibs == [] then
      Effect([], files, Ok(()))
    else
      var e := InstallEffect(env, self, constraints, packages, sibs, files, replies(n + |sibs|));
      Effect(plan + e.issued, e.files, e.result)
  }

  /** `ProcessEffect` when an uninstall fails, read off its definition. */
  lemma StopsEffect(env: Env, self: string, constraints: string, packages: map<Key, string>,
                    files: map<string, string>, replies: nat -> Reply, n: nat)
    requires !AllOk(replies, n, |SiblingNames(Installed(env.workingSet), self, packages)|)
    ensures var p := ProcessEffect(env, self, constraints, packages, files, replies, n);
            var issued := Attempt(Uninstalls(env.python, SiblingNames(Installed(env.workingSet), self, packages)), replies, n);
            && p.issued == issued && p.files == files && |issued| > 0
            && p.result == Err(CommandFailed(issued[|issued| - 1], replies(n + |issued| - 1).exitCode,
                                             replies(n + |issued| - 1).stdout))
  {
  }

  /** `ProcessEffect` when every uninstall succeeds, read off its definition. */
  lemma GoesOnEffect(env: Env, self: string, constraints: string, packages: map<Key, string>,
                     files: map<string, string>, replies: nat -> Reply, n: nat)
    requires AllOk(replies, n, |SiblingNames(Installed(env.workingSet), self, packages)|)
    ensures var sibs := SiblingNames(Installed(env.workingSet), self, packages);
            var p := ProcessEffect(env, self, constraints, packages, files, replies, n);
            var e := InstallEffect(env, self, constraints, packages, sibs, files, replies(n + |sibs|));
            p == if sibs == [] then Effect([], files, Ok(())) else Effect(Uninstalls(env.python, sibs) + e.issued, e.files, e.result)
  {
  }

  /** `process` when an uninstall fails: it issues a prefix of the uninstalls, all succeeding but the
    * last, which failed; pip install is never reached, no file changes and that last command is
    * reported. */
  lemma ProcessStops(env: Env, self: string, constraints: string, packages: map<Key, string>,
                     files: map<string, string>, replies: nat -> Reply, n: nat)
    requires !AllOk(replies, n, |SiblingNames(Installed(env.workingSet), self, packages)|)
    ensures var p := ProcessEffect(env, self, constraints, packages, files, replies, n);
            var last := n + |p.issued| - 1;
            && p.issued <= Uninstalls(env.python, SiblingNames(Installed(env.workingSet), self, packages))
            && |p.issued| > 0 && AllOk(replies, n, |p.issued| - 1) && replies(last).exitCode != 0
            && (forall i :: 0 <= i < |p.issued| ==> |p.issued[i]| > 3 && p.issued[i][3] == "uninstall")
            && p.files == files
            && p.result == Err(CommandFailed(p.issued[|p.issued| - 1], replies(last).exitCode, replies(last).stdout))
  {
    var plan := Uninstalls(env.python, SiblingNames(Installed(env.workingSet), self, packages));
    StopsEffect(env, self, constraints, packages, files, replies, n);
    AttemptPrefix(plan, replies, n);
    AttemptStops(plan, replies, n);
  }

  /** `process` when every uninstall succeeds: with no sibling it issues nothing and succeeds;
    * otherwise it issues all the uninstalls, then at most the one pip install, and ends as the
    * install step does. */
  lemma ProcessGoesOn(env: Env, self: string, constraints: string, packages: map<Key, string>,
                      files: map<string, string>, replies: nat -> Reply, n: nat)
    requires AllOk(replies, n, |SiblingNames(Installed(env.workingSet), self, packages)|)
    ensures var sibs := SiblingNames(Installed(env.workingSet), self, packages);
            var p := ProcessEffect(env, self, constraints, packages, files, replies, n);
            var e := InstallEffect(env, self, constraints, packages, sibs, files, replies(n + |sibs|));
            && (sibs == [] ==> p.issued == [] && p.files == files && p.result == Ok(()))
            && (sibs != [] ==> && |sibs| <= |p.issued| <= |sibs| + 1
                               && p.issued[..|sibs|] == Uninstalls(env.python, sibs)
                               && p.issued[|sibs|..] == e.issued
                               && p.files == e.files && p.result == e.result)
  {
    var sibs := SiblingNames(Installed(env.workingSet), self, packages);
    GoesOnEffect(env, self, constraints, packages, files, replies, n);
    if sibs != [] {
      var e := InstallEffect(env, self, constraints, packages, sibs, files, replies(n + |sibs|));
      var plan := Uninstalls(env.python, sibs);
      assert |e.issued| <= 1;
      assert (plan + e.issued)[..|sibs|] == plan;
      assert (plan + e.issued)[|sibs|..] == e.issued;
    }
  }

  /** `process` fails with a command's failure, with `UnboundLocalError` only without constraints, and
    * with a missing file only when the constraints file is missing. */
  lemma ProcessErrors(env: Env, self: string, constraints: string, packages: map<Key, string>,
                      files: map<string, string>, replies: nat -> Reply, n: nat)
    ensures var r := ProcessEffect(env, self, constraints, packages, files, replies, n).result;
            r.Err? ==> || r.error.CommandFailed?
                       || (r.error == UnboundLocal("constraints_file") && constraints == "")
                       || (r.error == FileNotFound(constraints) && constraints !in files)
  {
    var sibs := SiblingNames(Installed(env.workingSet), self, packages);
    if AllOk(replies, n, |sibs|) && sibs != [] {
      InstallErrors(env, self, constraints, packages, sibs, files, replies(n + |sibs|));
    }
  }

  /** Once pip was run with constraints, the temporary constraints file is gone, whatever pip did. */
  lemma ProcessRemovesTemporary(env: Env, self: string, constraints: string, packages: map<Key, string>,
                                files: map<string, string>, replies: nat -> Reply, n: nat)
    requires constraints != "" && constraints in files[env.constraintsTmp := ""]
    ensures var p := ProcessEffect(env, self, constraints, packages, files, replies, n);
            var sibs := SiblingNames(Installed(env.workingSet), self, packages);
            AllOk(replies, n, |sibs|) && sibs != [] ==> env.constraintsTmp !in p.files
  {
    CleanedFilesSpec(files - {env.constraintsTmp}, env.workingSet, self,
                     SiblingNames(Installed(env.workingSet), self, packages));
  }

  /** When every sibling was uninstalled and the constraints file, if any, is there, `process` runs
    * `pip install` once more, after the uninstalls, with `-c` and the temporary file exactly when there
    * are constraints, then `-e` and the checkout of each sibling. */
  lemma ProcessInstalls(env: Env, self: string, constraints: string, packages: map<Key, string>,
                        files: map<string, string>, replies: nat -> Reply, n: nat)
    requires constraints == "" || constraints in files[env.constraintsTmp := ""]
    ensures var p := ProcessEffect(env, self, constraints, packages, files, replies, n);
            var sibs := SiblingNames(Installed(env.workingSet), self, packages);
            var flags := if constraints == "" then [] else ["-c", env.constraintsTmp];
            AllOk(replies, n, |sibs|) && sibs != [] ==>
              p.issued == Uninstalls(env.python, sibs)
                          + [PipArgv(env.python, ["install"] + flags + FlagPairs("-e", Locations(sibs, packages)))]
  {
    var sibs := SiblingNames(Installed(env.workingSet), self, packages);
    if AllOk(replies, n, |sibs|) && sibs != [] {
      GoesOnEffect(env, self, constraints, packages, files, replies, n);
      if constraints == "" {
        assert InstallArgs(None, sibs, packages) == ["install"] + [] + FlagPairs("-e", Locations(sibs, packages));
      }
    }
  }

  /** The arguments of `pip install`: `install`, the constraints flags, then `-e` and the checkout of
    * each sibling in order. */
  lemma InstallArgsSpec(constraintsFile: Option<string>, sibs: seq<string>, packages: map<Key, string>)
    requires forall s :: s in sibs ==> Name(s) in packages
    ensures var args := InstallArgs(constraintsFile, sibs, packages);
            var k := if constraintsFile.Some? then 3 else 1;
            && |args| == k + 2 * |sibs|
            && args[0] == "install"
            && (constraintsFile.Some? ==> args[1] == "-c" && args[2] == constraintsFile.value)
            && forall i :: 0 <= i < |sibs| ==> args[k + 2 * i] == "-e" && args[k + 2 * i + 1] == packages[Name(sibs[i])]
  {
    var args := InstallArgs(constraintsFile, sibs, packages);
    var k := if constraintsFile.Some? then 3 else 1;
    var pairs := FlagPairs("-e", Locations(sibs, packages));
    assert args[k..] == pairs;
    forall i | 0 <= i < |sibs|
      ensures args[k + 2 * i] == "-e" && args[k + 2 * i + 1] == packages[Name(sibs[i])]
    {
      assert args[k + 2 * i] == pairs[2 * i] && args[k + 2 * i + 1] == pairs[2 * i + 1];
    }
  }

  /** The sibling processing of one project. */
  class Siblings {
    const name: string
    const projects: seq<string>
    const constraints: string
    const fs: FileSystem
    const runner: Runner
    const env: Env
    var packages: map<Key, string>

    /** Records its arguments; `Main` then runs `GetSiblings`, which the Python constructor calls. */
    constructor (name: string, projects: seq<string>, constraints: string, fs: FileSystem, runner: Runner, env: Env)
      ensures this.name == name && this.projects == projects && this.constraints == constraints
      ensures this.fs == fs && this.runner == runner && this.env == env && packages == map[]
    {
      this.name := name;
      this.projects := projects;
      this.constraints := constraints;
      this.fs := fs;
      this.runner := runner;
      this.env := env;
      packages := map[];
    }

    /** `get_siblings`: the package name of every checkout, mapped to its absolute path. */
    method GetSiblings() returns (r: Result<()>)
      modifies this, runner
      ensures runner.log == old(runner.log)
              + Attempt(seq(Calls(env, fs.files, projects), _ => NameArgv(env.python)), runner.replies, |old(runner.log)|)
      ensures r.Ok? <==> AllOk(runner.replies, |old(runner.log)|, Calls(env, fs.files, projects))
      ensures r.Ok? ==> packages == Apply(map[], Entries(env, fs.files, projects, runner.replies, |old(runner.log)|))
      ensures ReportsLast(runner.log, runner.replies, r)
    {
      packages := map[];
      var scanned := ScanRoots(runner, env, fs.files, projects);
      if scanned.Err? {
        return Err(scanned.error);
      }
      packages := scanned.value;
      r := Ok(());
    }

    /** `write_new_constraints_file`: a temporary copy of the constraints file without the lines about
      * siblings; the temporary file exists even when reading the constraints file fails. */
    method WriteNewConstraintsFile() returns (r: Result<string>)
      modifies fs
      ensures var created := old(fs.files)[env.constraintsTmp := ""];
              && (constraints !in created ==> r == Err(FileNotFound(constraints)) && fs.files == created)
              && (constraints in created ==>
                    r == Ok(env.constraintsTmp)
                    && fs.files == created[env.constraintsTmp := ConstraintsText(Universal(created[constraints]), packages)])
    {
      var tmp := env.constraintsTmp;
      fs.Write(tmp, "");
      if constraints !in fs.files {
        return Err(FileNotFound(constraints));
      }
      var out := KeptConstraints(Universal(fs.files[constraints]), packages);
      fs.Write(tmp, out);
      r := Ok(tmp);
    }

    /** `find_sibling_packages`: the installed siblings in working-set order, each uninstalled before it
      * is yielded. */
    method FindSiblingPackages() returns (r: Result<seq<string>>)
      modifies runner
      ensures var sibs := SiblingNames(Installed(env.workingSet), name, packages);
              && runner.log == old(runner.log)
                               + Attempt(Uninstalls(env.python, sibs), runner.replies, |old(runner.log)|)
              && (r.Ok? <==> AllOk(runner.replies, |old(runner.log)|, |sibs|))
              && (r.Ok? ==> r.value == sibs && runner.log == old(runner.log) + Uninstalls(env.python, sibs))
      ensures ReportsLast(runner.log, runner.replies, r)
    {
      r := UninstallSiblings(runner, env.python, Installed(env.workingSet), name, packages);
    }

    /** `clean_depends`: drops the version requirements on the installed siblings from the main
      * project's `requires.txt`. */
    method CleanDepends(installed: seq<string>)
      modifies fs
      ensures fs.files == CleanedFiles(old(fs.files), env.workingSet, name, installed)
    {
      var dist := FindProject(env.workingSet, name);
      if dist.None? {
        return;
      }
      var requirements := RequiresFile(dist.value);
      if requirements !in fs.files {
        return;
      }
      var out := RewriteText(Universal(fs.files[requirements]), installed);
      fs.Write(requirements, out);
    }

    /** The tail of `process` once siblings were found: `pip install`, with the constraints that leave
      * them out when there are constraints, then the `finally` clause and `clean_depends`. */
    method Install(installed: seq<string>, packageArgs: seq<string>) returns (r: Result<()>)
      requires forall s :: s in installed ==> Name(s) in packages
      requires packageArgs == FlagPairs("-e", Locations(installed, packages))
      modifies runner, fs
      ensures var e := InstallEffect(env, name, constraints, packages, installed, old(fs.files),
                                     runner.replies(|old(runner.log)|));
              runner.log == old(runner.log) + e.issued && fs.files == e.files && r == e.result
    {
      if constraints == "" {
        var args := ["install"] + packageArgs;
        assert args == InstallArgs(None, installed, packages);
        var _ := runner.Run(PipArgv(env.python, args));
        return Err(UnboundLocal("constraints_file"));
      }
      ghost var files0 := fs.files;
      var written := WriteNewConstraintsFile();
      if written.Err? {
        return Err(written.error);
      }
      var tmp := written.value;
      var args := ["install", "-c", tmp] + packageArgs;
      assert args == InstallArgs(Some(tmp), installed, packages);
      var pip := runner.Run(PipArgv(env.python, args));
      fs.Unlink(tmp);
      WrittenThenRemoved(files0, tmp, "", ConstraintsText(Universal(files0[tmp := ""][constraints]), packages));
      if pip.Err? {
        return Err(pip.error);
      }
      CleanDepends(installed);
      r := Ok(());
    }

    /** `process`: uninstalls the siblings, installs their checkouts with `pip install -e` under the
      * constraints without them, removes the temporary constraints file and cleans `requires.txt`.
      * Without constraints the `finally` clause names a variable that was never bound. */
    method Process() returns (r: Result<()>)
      modifies runner, fs
      ensures var p := ProcessEffect(env, name, constraints, packages, old(fs.files), runner.replies, |old(runner.log)|);
              runner.log == old(runner.log) + p.issued && fs.files == p.files && r == p.result
    {
      ghost var files0, log0 := fs.files, runner.log;
      var found := FindSiblingPackages();
      ghost var log1 := runner.log;
      if found.Err? {
        StopsEffect(env, name, constraints, packages, files0, runner.replies, |log0|);
        assert log1 == log0 + log1[|log0|..];
        return Err(found.error);
      }
      r := InstallFound(found.value, log0, files0);
    }

    /** The loop of `process` over the yielded siblings, then the install when there is one; `log0` and
      * `files0` are the log and the files before `process`. */
    method InstallFound(sibs: seq<string>, ghost log0: seq<Argv>, ghost files0: map<string, string>)
      returns (r: Result<()>)
      requires sibs == SiblingNames(Installed(env.workingSet), name, packages)
      requires AllOk(runner.replies, |log0|, |sibs|)
      requires runner.log == log0 + Uninstalls(env.python, sibs) && fs.files == files0
      modifies runner, fs
      ensures var p := ProcessEffect(env, name, constraints, packages, files0, runner.replies, |log0|);
              runner.log == log0 + p.issued && fs.files == p.files && r == p.result
    {
      GoesOnEffect(env, name, constraints, packages, files0, runner.replies, |log0|);
      var packageArgs, installed := PackageArgs(sibs, packages);
      if packageArgs == [] {
        assert sibs == [] && Uninstalls(env.python, sibs) == [];
        assert runner.log == log0;
        return Ok(());
      }
      ghost var log1 := runner.log;
      assert |log1| == |log0| + |sibs|;
      ghost var e := InstallEffect(env, name, constraints, packages, sibs, files0, runner.replies(|log1|));
      assert installed == sibs && fs.files == files0;
      r := Install(installed, packageArgs);
      assert runner.log == log1 + e.issued && fs.files == e.files && r == e.result;
      AppendAssoc(log0, Uninstalls(env.python, sibs), e.issued);
    }
  }

  /**
   * `main` of `pbrx siblings`, run in the project's directory: 0 when there is nothing to do or the
   * siblings were installed, 1 when the constraints file is missing. Exceptions propagate as `Err`.
   */
  method SiblingsMain(fs: FileSystem, runner: Runner, env: Env, projects: seq<string>, constraints: string)
    returns (r: Result<int>)
    modifies fs, runner
    ensures var skip := "setup.cfg" !in old(fs.files) || projects == [];
            var missing := !skip && constraints != "" && constraints !in old(fs.files);
            var nameless := !skip && !missing && !Truthy(GetPackageName(old(fs.files), "setup.cfg", env.metadataName));
            && (skip || missing || nameless ==> fs.files == old(fs.files) && runner.log == old(runner.log))
            && (skip || nameless ==> r == Ok(0))
            && (r == Ok(1) <==> missing)
    ensures r.Ok? ==> r.value == 0 || r.value == 1
    ensures old(runner.log) <= runner.log
    ensures r.Err? ==> r.error.CommandFailed? || (r.error == UnboundLocal("constraints_file") && constraints == "")
  {
    if "setup.cfg" !in fs.files {
      return Ok(0);
    }
    if projects == [] {
      return Ok(0);
    }
    if constraints != "" && constraints !in fs.files {
      return Ok(1);
    }
    var packageName := GetPackageName(fs.files, "setup.cfg", env.metadataName);
    if !Truthy(packageName) {
      return Ok(0);
    }
    var siblings := new Siblings(packageName.value, projects, constraints, fs, runner, env);
    var scanned := siblings.GetSiblings();
    if scanned.Err? {
      return Err(scanned.error);
    }
    ProcessErrors(env, siblings.name, constraints, siblings.packages, fs.files, runner.replies, |runner.log|);
    var processed := siblings.Process();
    if processed.Err? {
      return Err(processed.error);
    }
    r := Ok(0);
  }
}
