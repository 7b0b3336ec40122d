/**
 * External commands as pbrx sees them. A command is its argument vector; the
 * outside world answers the n-th command issued with `replies(n)`, an oracle
 * fixed for the whole run. A non-zero exit code is an exception at the call
 * site (`sh.ErrorReturnCode` for docker, `subprocess.CalledProcessError` for
 * pip and setup.py).
 */
module Commands {

  type Argv = seq<string>

  /** Exit code and standard output of one command. */
  datatype Reply = Reply(exitCode: int, stdout: string)

  /** The exceptions pbrx lets escape. */
  datatype Error =
    | CommandFailed(argv: Argv, exitCode: int, output: string)
    | NoOption(section: string, option: string)
    | FileNotFound(path: string)
    | UnboundLocal(variable: string)

  datatype Result<T> = Ok(value: T) | Err(error: Error)

  datatype Option<T> = None | Some(value: T)

  /** What the caller sees of one command: its output, or the exception. */
  function Outcome(argv: Argv, reply: Reply): (r: Result<string>)
    ensures r.Ok? <==> reply.exitCode == 0
    ensures r.Ok? ==> r.value == reply.stdout
    ensures r.Err? ==> r.error == CommandFailed(argv, reply.exitCode, reply.stdout)
  {
    if reply.exitCode == 0 then Ok(reply.stdout)
    else Err(CommandFailed(argv, reply.exitCode, reply.stdout))
  }

  /** The `k` commands issued from position `n` on all succeed. */
  predicate AllOk(replies: nat -> Reply, n: nat, k: nat)
  {
    forall j :: n <= j < n + k ==> replies(j).exitCode == 0
  }

  /** A failure reports the last command issued and its reply. */
  predicate ReportsLast<T>(log: seq<Argv>, replies: nat -> Reply, r: Result<T>)
  {
    r.Err? ==> |log| > 0 && r.error == CommandFailed(log[|log| - 1], replies(|log| - 1).exitCode,
                                                     replies(|log| - 1).stdout)
  }

  /** A failure passed on unchanged, under another result type, still reports the last command. */
  lemma ReportsLastPassed<T, U>(log: seq<Argv>, replies: nat -> Reply, r: Result<T>, r': Result<U>)
    requires ReportsLast(log, replies, r) && r.Err? && r' == Err(r.error)
    ensures ReportsLast(log, replies, r')
  {
  }

  /**
   * How many of `k` planned commands are issued when they run in order from position `n`, each
   * only if every one before it succeeded.
   */
  function Issued(k: nat, replies: nat -> Reply, n: nat): (m: nat)
    ensures m <= k
    decreases k
  {
    if k == 0 then 0
    else if replies(n).exitCode != 0 then 1
    else 1 + Issued(k - 1, replies, n + 1)
  }

  /**
   * The commands of `plan` (of any representation) that are issued: the whole plan, or the plan
   * up to and including its first failing command.
   */
  function Attempt<C>(plan: seq<C>, replies: nat -> Reply, n: nat): seq<C>
  {
    plan[..Issued(|plan|, replies, n)]
  }

  /** All `k` commands are issued when all succeed; otherwise the run stops right after the first failure. */
  lemma {:induction false} IssuedSpec(k: nat, replies: nat -> Reply, n: nat)
    ensures AllOk(replies, n, k) ==> Issued(k, replies, n) == k
    ensures !AllOk(replies, n, k) ==>
              var m := Issued(k, replies, n);
              0 < m && AllOk(replies, n, m - 1) && replies(n + m - 1).exitCode != 0
    decreases k
  {
    if k > 0 {
      IssuedSpec(k - 1, replies, n + 1);
      AllOkSplit(replies, n, 1, k - 1);
      if replies(n).exitCode == 0 && !AllOk(replies, n, k) {
        AllOkSplit(replies, n, 1, Issued(k - 1, replies, n + 1) - 1);
      }
    }
  }

  /** Issuing `k + m` commands: the last `m` are reached only if the first `k` all succeeded. */
  lemma {:induction false} IssuedSplit(k: nat, m: nat, replies: nat -> Reply, n: nat)
    ensures Issued(k + m, replies, n)
         == if AllOk(replies, n, k) then k + Issued(m, replies, n + k) else Issued(k, replies, n)
    decreases k
  {
    if k > 0 {
      IssuedSplit(k - 1, m, replies, n + 1);
      AllOkSplit(replies, n, 1, k - 1);
    }
  }

  /** What is issued is a prefix of the plan, and all of it when every command succeeds. */
  lemma AttemptPrefix<C>(plan: seq<C>, replies: nat -> Reply, n: nat)
    ensures Attempt(plan, replies, n) <= plan
    ensures AllOk(replies, n, |plan|) ==> Attempt(plan, replies, n) == plan
  {
    IssuedSpec(|plan|, replies, n);
  }

  /** A plan that does not run through stops right after its first failing command. */
  lemma AttemptStops<C>(plan: seq<C>, replies: nat -> Reply, n: nat)
    requires !AllOk(replies, n, |plan|)
    ensures var r := Attempt(plan, replies, n);
            0 < |r| && AllOk(replies, n, |r| - 1) && replies(n + |r| - 1).exitCode != 0
  {
    IssuedSpec(|plan|, replies, n);
  }

  /** A run of successes splits at any point. */
  lemma AllOkSplit(replies: nat -> Reply, n: nat, k: nat, m: nat)
    ensures AllOk(replies, n, k + m) <==> AllOk(replies, n, k) && AllOk(replies, n + k, m)
  {
    if AllOk(replies, n, k) && AllOk(replies, n + k, m) {
      forall j | n <= j < n + k + m ensures replies(j).exitCode == 0 {
        if j >= n + k { assert n + k <= j < n + k + m; }
      }
    }
  }

  /** Running two plans one after the other: the second starts only if the first succeeded. */
  lemma AttemptConcat<C>(a: seq<C>, b: seq<C>, replies: nat -> Reply, n: nat)
    ensures Attempt(a + b, replies, n)
         == if AllOk(replies, n, |a|) then a + Attempt(b, replies, n + |a|) else Attempt(a, replies, n)
  {
    IssuedSplit(|a|, |b|, replies, n);
    if AllOk(replies, n, |a|) {
      assert (a + b)[..|a| + Issued(|b|, replies, n + |a|)] == a + b[..Issued(|b|, replies, n + |a|)];
    } else {
      assert (a + b)[..Issued(|a|, replies, n)] == a[..Issued(|a|, replies, n)];
    }
  }

  /** Running `a` and then, if it ran through, `b`, issues what running `a + b` issues. */
  lemma AttemptThen<C>(a: seq<C>, b: seq<C>, replies: nat -> Reply, log0: seq<C>, log1: seq<C>, log2: seq<C>)
    requires log1 == log0 + Attempt(a, replies, |log0|)
    requires AllOk(replies, |log0|, |a|) ==> log2 == log1 + Attempt(b, replies, |log1|)
    requires !AllOk(replies, |log0|, |a|) ==> log2 == log1
    ensures log2 == log0 + Attempt(a + b, replies, |log0|)
    ensures AllOk(replies, |log0|, |a + b|) <==> AllOk(replies, |log0|, |a|) && AllOk(replies, |log1|, |b|)
  {
    AttemptConcat(a, b, replies, |log0|);
    AllOkSplit(replies, |log0|, |a|, |b|);
    if AllOk(replies, |log0|, |a|) {
      AttemptPrefix(a, replies, |log0|);
    }
  }

  /** One more command after a run of successful ones. */
  lemma AttemptStep<C>(plan: seq<C>, replies: nat -> Reply, n: nat, i: nat)
    requires i < |plan| && AllOk(replies, n, i)
    ensures replies(n + i).exitCode != 0 ==> Attempt(plan, replies, n) == plan[..i + 1]
    ensures replies(n + i).exitCode == 0 ==> AllOk(replies, n, i + 1)
  {
    IssuedSplit(i, |plan| - i, replies, n);
    AllOkSplit(replies, n, i, 1);
    IssuedSplit(1, |plan| - i - 1, replies, n + i);
  }

  /**
   * One step of running a plan command by command: after the `i`-th command is issued, the log
   * holds one more command of the plan, and either that command failed and the run is over, or
   * one more command succeeded.
   */
  lemma AttemptNext<C>(plan: seq<C>, replies: nat -> Reply, i: nat, log0: seq<C>, log1: seq<C>, log2: seq<C>)
    requires i < |plan| && AllOk(replies, |log0|, i)
    requires log1 == log0 + plan[..i] && log2 == log1 + [plan[i]]
    ensures log2 == log0 + plan[..i + 1]
    ensures replies(|log0| + i).exitCode != 0 ==> log2 == log0 + Attempt(plan, replies, |log0|)
    ensures replies(|log0| + i).exitCode == 0 ==> AllOk(replies, |log0|, i + 1)
    ensures replies(|log0| + i).exitCode == 0 && i + 1 == |plan| ==> log2 == log0 + Attempt(plan, replies, |log0|)
  {
    TakeNext(plan, i);
    AttemptStep(plan, replies, |log0|, i);
    if replies(|log0| + i).exitCode == 0 && i + 1 == |plan| {
      AttemptPrefix(plan, replies, |log0|);
      assert plan[..i + 1] == plan;
    }
  }

  /** A plan issued command by command to its end, every command succeeding, is issued whole. */
  lemma AttemptAll<C>(plan: seq<C>, replies: nat -> Reply, log0: seq<C>, log: seq<C>)
    requires log == log0 + plan[..|plan|] && AllOk(replies, |log0|, |plan|)
    ensures log == log0 + Attempt(plan, replies, |log0|)
  {
    AttemptPrefix(plan, replies, |log0|);
    assert plan[..|plan|] == plan;
  }

  /** A prefix one longer is the prefix with the next element appended. */
  lemma TakeNext<T>(s: seq<T>, i: nat)
    requires i < |s|
    ensures s[..i + 1] == s[..i] + [s[i]]
  {
  }

  /** The flag-value pairs `flag v1 flag v2 ...` of a command line, in order. */
  function FlagPairs(flag: string, values: seq<string>): (r: seq<string>)
    ensures |r| == 2 * |values|
    ensures forall i :: 0 <= i < |values| ==> r[2 * i] == flag && r[2 * i + 1] == values[i]
    decreases |values|
  {
    if values == [] then []
    else FlagPairs(flag, values[..|values| - 1]) + [flag, values[|values| - 1]]
  }

  /** `[sys.executable, "-m", "pip"] + args`: how pbrx runs pip. */
  function PipArgv(python: string, args: seq<string>): Argv
  {
    [python, "-m", "pip"] + args
  }

  /** A process runner with a log of the commands it was asked to run. */
  class Runner {
    const replies: nat -> Reply
    var log: seq<Argv>

    constructor (replies: nat -> Reply)
      ensures this.replies == replies && log == []
    {
      this.replies := replies;
      log := [];
    }

    /** Runs one command; a non-zero exit code raises. */
    method Run(argv: Argv) returns (r: Result<string>)
      modifies this
      ensures log == old(log) + [argv]
      ensures r == Outcome(argv, replies(|old(log)|))
      ensures ReportsLast(log, replies, r)
    {
      r := Outcome(argv, replies(|log|));
      log := log + [argv];
    }
  }
}
