/**
 * pbrx/container_images.py: building one base image for a project and one
 * image per console script by driving the docker command line.
 *
 * The docker engine is an `Engine` object: the log of the docker commands
 * issued and an oracle giving the reply to the n-th command; the images and
 * containers that exist follow from the log. The host is a `Host` value: the working
 * directory, the home directory, the uid as text and the set of files that
 * exist. `setup.cfg` arrives already parsed, as the two values `build` reads.
 */
module ContainerImages {
  import opened Text
  import opened Commands

  const AlpineMirrorBase := "http://dl-cdn.alpinelinux.org/alpine"

  // ---------------------------------------------------------------------
  // ProjectInfo
  // ---------------------------------------------------------------------

  /** The two values read from `setup.cfg`; `None` where configparser raises. */
  datatype SetupCfg = SetupCfg(name: Option<string>, consoleScripts: Option<string>)

  /** A project's name and the names of its console scripts. */
  datatype ProjectInfo = ProjectInfo(name: string, scripts: set<string>)
  {
    /** `base_container`: the name of the project's base image. */
    function BaseContainer(): (r: string)
      ensures |r| == |name| + 5 && r[..|name|] == name && r[|name|..] == "-base"
    {
      name + "-base"
    }
  }

  /** The lines of the `console_scripts` value: stripped, then split on newlines. */
  function ConsoleLines(consoleScripts: string): seq<string>
  {
    Split(Strip(consoleScripts), "\n")
  }

  /** What one line contributes: its stripped left side when `=` splits it in exactly two. */
  function LineScript(line: string): set<string>
  {
    var parts := Split(line, "=");
    if |parts| == 2 then {Strip(parts[0])} else {}
  }

  /** The script names of a sequence of lines. */
  function ScriptNames(lines: seq<string>): set<string>
    decreases |lines|
  {
    if lines == [] then {}
    else ScriptNames(lines[..|lines| - 1]) + LineScript(lines[|lines| - 1])
  }

  /** `line` holds exactly one `=`, and `x` is what stands left of it, stripped. */
  predicate DefinesScript(line: string, x: string)
  {
    Count(line, '=') == 1 && x == Strip(Split(line, "=")[0])
  }

  /** A line contributes `x` iff it defines the script `x`. */
  lemma LineScriptSpec(line: string, x: string)
    ensures x in LineScript(line) <==> DefinesScript(line, x)
  {
    SplitCharCount(line, '=');
  }

  /** A name is a script iff some line holds exactly one `=` and that name left of it. */
  lemma {:induction false} ScriptNamesSpec(lines: seq<string>, x: string)
    ensures x in ScriptNames(lines) <==> exists i :: 0 <= i < |lines| && DefinesScript(lines[i], x)
    decreases |lines|
  {
    if lines != [] {
      var init := lines[..|lines| - 1];
      ScriptNamesSpec(init, x);
      LineScriptSpec(lines[|lines| - 1], x);
      if x in ScriptNames(init) {
        var i :| 0 <= i < |init| && DefinesScript(init[i], x);
        assert lines[i] == init[i];
      }
      if exists i :: 0 <= i < |lines| && DefinesScript(lines[i], x) {
        var i :| 0 <= i < |lines| && DefinesScript(lines[i], x);
        if i < |init| {
          assert init[i] == lines[i];
        }
      }
    }
  }

  /** `ProjectInfo._extract_scripts`: collects the script names into a set, line by line. */
  method ExtractScripts(consoleScripts: string) returns (scripts: set<string>)
    ensures scripts == ScriptNames(ConsoleLines(consoleScripts))
    ensures forall x :: x in scripts <==>
              exists i :: 0 <= i < |ConsoleLines(consoleScripts)| && DefinesScript(ConsoleLines(consoleScripts)[i], x)
  {
    var lines := Split(Strip(consoleScripts), "\n");
    scripts := {};
    for i := 0 to |lines|
      invariant scripts == ScriptNames(lines[..i])
    {
      assert lines[..i + 1][..i] == lines[..i];
      var parts := Split(lines[i], "=");
      if |parts| != 2 {
        continue;
      }
      scripts := scripts + {Strip(parts[0])};
    }
    assert lines[..|lines|] == lines;
    forall x {
      ScriptNamesSpec(lines, x);
    }
  }

  /** `ProjectInfo()`: the scripts are read first, then the name; either lookup may raise. */
  method LoadProjectInfo(cfg: SetupCfg) returns (r: Result<ProjectInfo>)
    ensures cfg.consoleScripts.None? ==> r == Err(NoOption("entry_points", "console_scripts"))
    ensures cfg.consoleScripts.Some? && cfg.name.None? ==> r == Err(NoOption("metadata", "name"))
    ensures CfgComplete(cfg) <==> r.Ok?
    ensures r.Ok? ==> r.value == InfoOf(cfg)
  {
    if cfg.consoleScripts.None? {
      return Err(NoOption("entry_points", "console_scripts"));
    }
    var scripts := ExtractScripts(cfg.consoleScripts.value);
    if cfg.name.None? {
      return Err(NoOption("metadata", "name"));
    }
    r := Ok(ProjectInfo(cfg.name.value, scripts));
  }

  predicate CfgComplete(cfg: SetupCfg)
  {
    cfg.name.Some? && cfg.consoleScripts.Some?
  }

  function InfoOf(cfg: SetupCfg): ProjectInfo
    requires CfgComplete(cfg)
  {
    ProjectInfo(cfg.name.value, ScriptNames(ConsoleLines(cfg.consoleScripts.value)))
  }

  /** The pip extra named after an image or script: every `-` becomes `_`. */
  function ExtraName(s: string): (r: string)
    ensures |r| == |s| && '-' !in r
    ensures forall i :: 0 <= i < |s| && s[i] != '-' ==> r[i] == s[i]
    ensures forall i :: 0 <= i < |s| && s[i] == '-' ==> r[i] == '_'
  {
    ReplaceChar(s, '-', '_')
  }

  /** The base image's extra is the project's extra followed by `_base`. */
  lemma BaseExtra(info: ProjectInfo)
    ensures ExtraName(info.BaseContainer()) == ExtraName(info.name) + "_base"
  {
    ReplaceCharConcat(info.name, "-base", '-', '_');
  }

  /** Replacing `-` in the comma-joined script names gives the joined extras of the scripts. */
  lemma JoinedExtras(order: seq<string>)
    ensures ExtraName(Join(order, ","))
         == Join(seq(|order|, i requires 0 <= i < |order| => ExtraName(order[i])), ",")
  {
    ReplaceCharJoin(order, ",", '-', '_');
    assert seq(|order|, i requires 0 <= i < |order| => ExtraName(order[i]))
        == seq(|order|, i requires 0 <= i < |order| => ReplaceChar(order[i], '-', '_'));
  }

  // ---------------------------------------------------------------------
  // The docker engine
  // ---------------------------------------------------------------------

  /** A docker command line, by its subcommand; `Render` gives the argument vector. */
  datatype Cmd =
    | Create(cwd: string, volumes: seq<string>, image: string)
    | Start(container: string)
    | Exec(container: string, command: string)
    | Commit(comment: string, container: string, tag: string)
    | Tag(source: string, target: string)
    | Rm(container: string)
    | Build(dockerfile: string, tag: string)
    | Bindep(cwd: string, profile: seq<string>)

  /** The arguments `sh.docker` is called with. */
  function Render(c: Cmd): Argv
  {
    match c
    case Create(cwd, volumes, image) =>
      ["create", "--rm", "-it", "-v", cwd + ":/usr/src", "-w", "/usr/src"]
      + FlagPairs("-v", volumes) + [image, "sh"]
    case Start(id) => ["start", id]
    case Exec(id, command) => ["exec", id, "sh", "-c", command]
    case Commit(comment, id, tag) =>
      ["commit"] + (if comment != "" then ["-c", comment] else []) + [id, tag]
    case Tag(source, target) => ["tag", source, target]
    case Rm(id) => ["rm", "-f", id]
    case Build(dockerfile, tag) => ["build", "-f", dockerfile, "-t", tag, "."]
    case Bindep(cwd, profile) =>
      ["run", "--rm", "-v", cwd + ":/usr/src", "bindep", "bindep", "-b"] + profile
  }

  /** `docker create` mounts the source tree at /usr/src as working directory, then each volume
    * with its own `-v`, in order, and runs `sh` in the image. */
  lemma RenderCreate(cwd: string, volumes: seq<string>, image: string)
    ensures var r := Render(Create(cwd, volumes, image));
            && |r| == 9 + 2 * |volumes|
            && r[..7] == ["create", "--rm", "-it", "-v", cwd + ":/usr/src", "-w", "/usr/src"]
            && (forall i :: 0 <= i < |volumes| ==> r[7 + 2 * i] == "-v" && r[8 + 2 * i] == volumes[i])
            && r[|r| - 2..] == [image, "sh"]
  {
    var r := Render(Create(cwd, volumes, image));
    var flags := FlagPairs("-v", volumes);
    assert r == ["create", "--rm", "-it", "-v", cwd + ":/usr/src", "-w", "/usr/src"] + flags + [image, "sh"];
    forall i | 0 <= i < |volumes|
      ensures r[7 + 2 * i] == "-v" && r[8 + 2 * i] == volumes[i]
    {
      assert r[7 + 2 * i] == flags[2 * i];
      assert r[8 + 2 * i] == flags[2 * i + 1];
    }
  }

  /** `docker commit` passes `-c <comment>` exactly when the comment is non-empty, and ends with
    * the container and the tag. */
  lemma RenderCommit(comment: string, id: string, tag: string)
    ensures var r := Render(Commit(comment, id, tag));
            && r[0] == "commit" && (comment != "" <==> |r| == 5) && (comment == "" <==> |r| == 3)
            && (comment != "" ==> r[1..3] == ["-c", comment])
            && r[|r| - 2..] == [id, tag]
  {
  }

  /** The images a successful docker command leaves behind. */
  function Produced(c: Cmd): set<string>
  {
    match c
    case Commit(_, _, tag) => {tag}
    case Tag(_, target) => {target}
    case Build(_, tag) => {tag}
    case _ => {}
  }

  /** Some command of `log` from position `from` on succeeded and left the image `tag` behind. */
  ghost predicate Made(log: seq<Cmd>, replies: nat -> Reply, from: nat, tag: string)
  {
    exists k :: from <= k < |log| && tag in Produced(log[k]) && replies(k).exitCode == 0
  }

  /** The command `c` was issued at position `from` or later and succeeded. */
  ghost predicate Succeeded(log: seq<Cmd>, replies: nat -> Reply, from: nat, c: Cmd)
  {
    exists k :: from <= k < |log| && log[k] == c && replies(k).exitCode == 0
  }

  /** A failure reports the last docker command issued and its reply. */
  predicate Reports<T>(log: seq<Cmd>, replies: nat -> Reply, r: Result<T>)
  {
    r.Err? ==> |log| > 0 && r.error == CommandFailed(Render(log[|log| - 1]), replies(|log| - 1).exitCode,
                                                     replies(|log| - 1).stdout)
  }

  /** A failure passed on unchanged reports the same command. */
  lemma ReportsPassed<T, U>(log: seq<Cmd>, replies: nat -> Reply, r: Result<T>, r': Result<U>)
    requires Reports(log, replies, r) && r.Err? && r' == Err(r.error)
    ensures Reports(log, replies, r')
  {
  }

  /** What is made stays made as the log grows. */
  lemma MadeMono(log: seq<Cmd>, log': seq<Cmd>, replies: nat -> Reply, from: nat, from': nat, tag: string)
    requires log <= log' && from' <= from && Made(log, replies, from, tag)
    ensures Made(log', replies, from', tag)
  {
    var k :| from <= k < |log| && tag in Produced(log[k]) && replies(k).exitCode == 0;
    assert log'[k] == log[k];
  }

  /** The docker daemon as pbrx sees it: the commands issued so far, and the replies. */
  class Engine {
    const replies: nat -> Reply
    var log: seq<Cmd>

    constructor (replies: nat -> Reply)
      ensures this.replies == replies && log == []
    {
      this.replies := replies;
      log := [];
    }

    /** `sh.docker(...)`: a non-zero exit code raises `ErrorReturnCode`. */
    method Docker(c: Cmd) returns (r: Result<string>)
      modifies this
      ensures log == old(log) + [c]
      ensures r == Outcome(Render(c), replies(|old(log)|))
    {
      r := Outcome(Render(c), replies(|log|));
      log := log + [c];
    }
  }

  // ---------------------------------------------------------------------
  // ContainerContext
  // ---------------------------------------------------------------------

  /** The host: working directory, home directory, uid (as text) and the files that exist. */
  datatype Host = Host(cwd: string, home: string, uid: string, files: set<string>)

  const EtcPipConf := "/etc/pip.conf"

  /** `os.path.expanduser('~/.config/pip/pip.conf')`. */
  function UserPipConf(home: string): string
  {
    TrimRight(home, c => c == '/') + "/.config/pip/pip.conf"
  }

  /** The bind mounts of a build container: the caller's, then the pip configurations that exist. */
  function MountList(volumes: seq<string>, host: Host): (r: seq<string>)
    ensures |r| == |volumes| + (if EtcPipConf in host.files then 1 else 0)
                             + (if UserPipConf(host.home) in host.files then 1 else 0)
    ensures r[..|volumes|] == volumes
    ensures EtcPipConf in host.files ==> r[|volumes|] == "/etc/pip.conf:/etc/pip.conf"
    ensures UserPipConf(host.home) in host.files ==>
              r[|r| - 1] == UserPipConf(host.home) + ":/root/.config/pip/pip.conf"
  {
    volumes
    + (if EtcPipConf in host.files then ["/etc/pip.conf:/etc/pip.conf"] else [])
    + (if UserPipConf(host.home) in host.files
       then [UserPipConf(host.home) + ":/root/.config/pip/pip.conf"] else [])
  }

  /** The id `docker create` printed at position `n` and the one `docker start` printed after it. */
  function ContainerIdAt(replies: nat -> Reply, n: nat): string
  {
    Strip(replies(n).stdout)
  }

  function RunIdAt(replies: nat -> Reply, n: nat): string
  {
    Strip(replies(n + 1).stdout)
  }

  /** The commands `ContainerContext.create` issues from position `n`: create, then start if create succeeded. */
  function CreateLog(cwd: string, volumes: seq<string>, base: string, replies: nat -> Reply, n: nat): seq<Cmd>
  {
    [Create(cwd, volumes, base)]
    + (if replies(n).exitCode == 0 then [Start(ContainerIdAt(replies, n))] else [])
  }

  /** `commit`: the commit, then a prefixed tag when a prefix is given. */
  function CommitPlan(runId: string, tag: string, comment: string, prefix: string): seq<Cmd>
  {
    [Commit(comment, runId, tag)] + (if prefix != "" then [Tag(tag, prefix + "/" + tag)] else [])
  }

  /** What the normal exit of `docker_container` issues: commit (for a tag), then `rm -f`. */
  function ExitPlan(runId: string, tag: string, prefix: string, comment: string): seq<Cmd>
  {
    (if tag != "" then CommitPlan(runId, tag, comment, prefix) else []) + [Rm(runId)]
  }

  /** On normal exit exactly one `rm -f` is issued, last, and a commit precedes it iff there is a tag. */
  lemma ExitPlanShape(runId: string, tag: string, prefix: string, comment: string)
    ensures var p := ExitPlan(runId, tag, prefix, comment);
            && p[|p| - 1] == Rm(runId)
            && (forall i :: 0 <= i < |p| - 1 ==> !p[i].Rm?)
            && (forall i :: 0 <= i < |p| ==> !p[i].Create? && !p[i].Exec?)
            && (tag != "" <==> exists i :: 0 <= i < |p| && p[i].Commit?)
            && (tag != "" ==> p[0] == Commit(comment, runId, tag))
            && (tag != "" && prefix != "" <==> |p| == 3)
            && (tag != "" && prefix != "" ==> p[1] == Tag(tag, prefix + "/" + tag))
  {
    var p := ExitPlan(runId, tag, prefix, comment);
    if tag != "" {
      assert p[0].Commit?;
    } else {
      assert p == [Rm(runId)];
    }
  }

  class ContainerContext {
    const engine: Engine
    const base: string
    var volumes: seq<string>
    var runId: string

    /** The first half of `__init__`: the volume list, with the pip configurations appended in place. */
    constructor (engine: Engine, host: Host, base: string, volumes: seq<string>)
      ensures this.engine == engine && this.base == base
      ensures this.volumes == MountList(volumes, host) && runId == ""
    {
      this.engine := engine;
      this.base := base;
      this.volumes := volumes;
      runId := "";
      new;
      if EtcPipConf in host.files {
        this.volumes := this.volumes + ["/etc/pip.conf:/etc/pip.conf"];
      }
      if UserPipConf(host.home) in host.files {
        this.volumes := this.volumes + [UserPipConf(host.home) + ":/root/.config/pip/pip.conf"];
      }
    }

    /** `create`: `docker create` with the mounts, then `docker start` of the id it printed;
      * the result is the stripped output of `docker start`. */
    method Create(cwd: string) returns (r: Result<string>)
      modifies engine
      ensures engine.log == old(engine.log) + CreateLog(cwd, volumes, base, engine.replies, |old(engine.log)|)
      ensures r.Ok? <==> AllOk(engine.replies, |old(engine.log)|, 2)
      ensures r.Ok? ==> r.value == RunIdAt(engine.replies, |old(engine.log)|)
      ensures Reports(engine.log, engine.replies, r)
    {
      var created := engine.Docker(Cmd.Create(cwd, volumes, base));
      if created.Err? {
        return created;
      }
      var containerId := Strip(created.value);
      var started := engine.Docker(Start(containerId));
      if started.Err? {
        return started;
      }
      r := Ok(Strip(started.value));
    }

    /** `run`: the command runs in the container through `sh -c`; a failure raises. */
    method Run(command: string) returns (r: Result<string>)
      modifies engine
      ensures engine.log == old(engine.log) + [Exec(runId, command)]
      ensures r == Outcome(Render(Exec(runId, command)), engine.replies(|old(engine.log)|))
      ensures Reports(engine.log, engine.replies, r)
    {
      r := engine.Docker(Exec(runId, command));
    }

    /** `commit`: commits the container as `tag`, then tags it `<prefix>/<tag>` when a prefix is given. */
    method Commit(tag: string, comment: string, prefix: string) returns (r: Result<()>)
      modifies engine
      ensures engine.log == old(engine.log)
                            + Attempt(CommitPlan(runId, tag, comment, prefix), engine.replies, |old(engine.log)|)
      ensures r.Ok? <==> AllOk(engine.replies, |old(engine.log)|, |CommitPlan(runId, tag, comment, prefix)|)
      ensures Reports(engine.log, engine.replies, r)
    {
      ghost var n := |engine.log|;
      ghost var plan := CommitPlan(runId, tag, comment, prefix);
      var committed := engine.Docker(Cmd.Commit(comment, runId, tag));
      AttemptStep(plan, engine.replies, n, 0);
      if committed.Err? {
        return Err(committed.error);
      }
      if prefix != "" {
        var tagged := engine.Docker(Tag(tag, prefix + "/" + tag));
        AttemptStep(plan, engine.replies, n, 1);
        if tagged.Err? {
          assert plan[..2] == plan;
          return Err(tagged.error);
        }
      }
      AttemptPrefix(plan, engine.replies, n);
      r := Ok(());
    }
  }

  /** `ContainerContext(base, volumes)`: the volume list, then `create`, whose result becomes `run_id`. */
  method NewContainerContext(engine: Engine, host: Host, base: string, volumes: seq<string>)
    returns (r: Result<ContainerContext>)
    modifies engine
    ensures engine.log == old(engine.log)
            + CreateLog(host.cwd, MountList(volumes, host), base, engine.replies, |old(engine.log)|)
    ensures r.Ok? <==> AllOk(engine.replies, |old(engine.log)|, 2)
    ensures r.Ok? ==> fresh(r.value) && r.value.engine == engine && r.value.base == base
                      && r.value.volumes == MountList(volumes, host)
                      && r.value.runId == RunIdAt(engine.replies, |old(engine.log)|)
    ensures Reports(engine.log, engine.replies, r)
  {
    var ctx := new ContainerContext(engine, host, base, volumes);
    var id := ctx.Create(host.cwd);
    if id.Err? {
      return Err(id.error);
    }
    ctx.runId := id.value;
    r := Ok(ctx);
  }

  // ---------------------------------------------------------------------
  // docker_container
  // ---------------------------------------------------------------------

  /** One `with docker_container(base, tag, prefix, comment, volumes) as cont:` block whose
    * body runs `cont.run(c)` for each command `c` of `body` in turn. An empty string stands
    * for a missing tag, prefix or comment: only their truthiness matters. */
  datatype Scope = Scope(base: string, tag: string, prefix: string, comment: string,
                         volumes: seq<string>, body: seq<string>)

  /** The `docker exec` of each command of a body, in order. */
  function ExecPlan(runId: string, body: seq<string>): (r: seq<Cmd>)
    ensures |r| == |body|
    ensures forall i :: 0 <= i < |body| ==> r[i] == Exec(runId, body[i])
    decreases |body|
  {
    if body == [] then [] else [Exec(runId, body[0])] + ExecPlan(runId, body[1..])
  }

  /** What a scope issues once its container runs: the body, then the normal exit. */
  function ScopePlan(runId: string, sc: Scope): seq<Cmd>
  {
    ExecPlan(runId, sc.body) + ExitPlan(runId, sc.tag, sc.prefix, sc.comment)
  }

  /** The docker commands a scope issues from position `n`. */
  function ScopeLog(host: Host, sc: Scope, replies: nat -> Reply, n: nat): seq<Cmd>
  {
    CreateLog(host.cwd, MountList(sc.volumes, host), sc.base, replies, n) + ScopeTail(sc, replies, n)
  }

  /** What a scope issues after `docker create` and `docker start`, if both succeeded. */
  function ScopeTail(sc: Scope, replies: nat -> Reply, n: nat): seq<Cmd>
  {
    if AllOk(replies, n, 2) then Attempt(ScopePlan(RunIdAt(replies, n), sc), replies, n + 2) else []
  }

  /** Every command of a scope succeeds. */
  predicate ScopeOk(host: Host, sc: Scope, replies: nat -> Reply, n: nat)
  {
    AllOk(replies, n, 2) && AllOk(replies, n + 2, |ScopePlan(RunIdAt(replies, n), sc)|)
  }

  /** When a command of the body fails, the scope ends with it: no commit and no `rm -f` is issued,
    * so the container is left behind. */
  lemma BodyFailureLeavesContainer(host: Host, sc: Scope, replies: nat -> Reply, n: nat)
    requires AllOk(replies, n, 2) && !AllOk(replies, n + 2, |sc.body|)
    ensures var log := ScopeLog(host, sc, replies, n);
            && log[|log| - 1].Exec?
            && forall i :: 0 <= i < |log| ==> !log[i].Commit? && !log[i].Rm?
  {
    var tail := Attempt(ScopePlan(RunIdAt(replies, n), sc), replies, n + 2);
    BodyFailureStops(RunIdAt(replies, n), sc, replies, n + 2);
    var log := ScopeLog(host, sc, replies, n);
    assert log == CreateLog(host.cwd, MountList(sc.volumes, host), sc.base, replies, n) + tail;
    forall i | 2 <= i < |log|
      ensures log[i].Exec?
    {
      assert log[i] == tail[i - 2];
    }
  }

  /** A failing body cuts the scope's plan short inside the body: only `docker exec`s are issued. */
  lemma BodyFailureStops(rid: string, sc: Scope, replies: nat -> Reply, m: nat)
    requires !AllOk(replies, m, |sc.body|)
    ensures var issued := Attempt(ScopePlan(rid, sc), replies, m);
            && 0 < |issued| <= |sc.body|
            && forall i :: 0 <= i < |issued| ==> issued[i] == Exec(rid, sc.body[i])
  {
    var execs := ExecPlan(rid, sc.body);
    AttemptConcat(execs, ExitPlan(rid, sc.tag, sc.prefix, sc.comment), replies, m);
    AttemptStops(execs, replies, m);
    AttemptPrefix(execs, replies, m);
  }

  /** A scope's plan ends with exactly one `rm -f`, of its run id; the command right after the
    * body is a commit iff the scope has a tag, followed by the prefixed tag when it has a prefix. */
  lemma ScopePlanShape(rid: string, sc: Scope)
    ensures var p := ScopePlan(rid, sc);
            && p[|p| - 1] == Rm(rid)
            && (forall i :: 0 <= i < |p| - 1 ==> !p[i].Rm?)
            && (sc.tag != "" <==> p[|sc.body|].Commit?)
            && (sc.tag != "" ==> p[|sc.body|] == Commit(sc.comment, rid, sc.tag))
            && (sc.tag != "" && sc.prefix != "" ==> p[|sc.body| + 1] == Tag(sc.tag, sc.prefix + "/" + sc.tag))
  {
    var p := ScopePlan(rid, sc);
    var execs := ExecPlan(rid, sc.body);
    var exit := ExitPlan(rid, sc.tag, sc.prefix, sc.comment);
    ExitPlanShape(rid, sc.tag, sc.prefix, sc.comment);
    assert p[|execs|] == exit[0];
    if sc.tag != "" && sc.prefix != "" {
      assert p[|execs| + 1] == exit[1];
    }
    forall i | 0 <= i < |p| - 1
      ensures !p[i].Rm?
    {
      if i >= |execs| {
        assert p[i] == exit[i - |execs|];
      }
    }
  }

  /** A scope that runs through issues `docker create`, `docker start` and then its whole plan. */
  lemma ScopeOkLog(host: Host, sc: Scope, replies: nat -> Reply, n: nat)
    requires ScopeOk(host, sc, replies, n)
    ensures var pre := CreateLog(host.cwd, MountList(sc.volumes, host), sc.base, replies, n);
            && |pre| == 2
            && ScopeLog(host, sc, replies, n) == pre + ScopePlan(RunIdAt(replies, n), sc)
  {
    AttemptPrefix(ScopePlan(RunIdAt(replies, n), sc), replies, n + 2);
  }

  /** A scope that runs through removes its container: its last command is the one `rm -f` it
    * issues, of the run id. */
  lemma ScopeOkRemoves(host: Host, sc: Scope, replies: nat -> Reply, n: nat)
    requires ScopeOk(host, sc, replies, n)
    ensures var log := ScopeLog(host, sc, replies, n);
            && log[|log| - 1] == Rm(RunIdAt(replies, n))
            && forall i :: 0 <= i < |log| - 1 ==> !log[i].Rm?
  {
    var log := ScopeLog(host, sc, replies, n);
    var plan := ScopePlan(RunIdAt(replies, n), sc);
    ScopeOkLog(host, sc, replies, n);
    ScopePlanShape(RunIdAt(replies, n), sc);
    assert log[|log| - 1] == plan[|plan| - 1];
    forall i | 2 <= i < |log| - 1
      ensures !log[i].Rm?
    {
      assert log[i] == plan[i - 2];
    }
  }

  /** A scope that runs through with a tag leaves its image behind, and the prefixed one when
    * it has a prefix. */
  lemma ScopeMakes(host: Host, sc: Scope, replies: nat -> Reply, pre: seq<Cmd>)
    requires ScopeOk(host, sc, replies, |pre|) && sc.tag != ""
    ensures Succeeded(pre + ScopeLog(host, sc, replies, |pre|), replies, |pre|,
                      Commit(sc.comment, RunIdAt(replies, |pre|), sc.tag))
    ensures Made(pre + ScopeLog(host, sc, replies, |pre|), replies, |pre|, sc.tag)
    ensures sc.prefix != "" ==> Made(pre + ScopeLog(host, sc, replies, |pre|), replies, |pre|,
                                     sc.prefix + "/" + sc.tag)
  {
    var n := |pre|;
    var rid := RunIdAt(replies, n);
    var plan := ScopePlan(rid, sc);
    var log := pre + ScopeLog(host, sc, replies, n);
    ScopeOkLog(host, sc, replies, n);
    ScopePlanShape(rid, sc);
    var k := n + 2 + |sc.body|;
    assert log[k] == plan[|sc.body|];
    AllOkSplit(replies, n + 2, |sc.body|, |plan| - |sc.body|);
    AllOkSplit(replies, n + 2 + |sc.body|, 1, |plan| - |sc.body| - 1);
    assert sc.tag in Produced(log[k]);
    if sc.prefix != "" {
      assert log[k + 1] == plan[|sc.body| + 1];
      AllOkSplit(replies, n + 3 + |sc.body|, 1, |plan| - |sc.body| - 2);
      assert sc.prefix + "/" + sc.tag in Produced(log[k + 1]);
    }
  }


  /** A scope creates one container, with the scope's image and mounts, as its first command,
    * and no other. */
  lemma ScopeCreatesOnce(host: Host, sc: Scope, replies: nat -> Reply, n: nat)
    ensures var log := ScopeLog(host, sc, replies, n);
            && log[0] == Create(host.cwd, MountList(sc.volumes, host), sc.base)
            && forall i :: 0 < i < |log| ==> !log[i].Create?
  {
    var log := ScopeLog(host, sc, replies, n);
    var pre := CreateLog(host.cwd, MountList(sc.volumes, host), sc.base, replies, n);
    var tail := ScopeTail(sc, replies, n);
    if AllOk(replies, n, 2) {
      var rid := RunIdAt(replies, n);
      var plan := ScopePlan(rid, sc);
      var execs := ExecPlan(rid, sc.body);
      var exit := ExitPlan(rid, sc.tag, sc.prefix, sc.comment);
      ExitPlanShape(rid, sc.tag, sc.prefix, sc.comment);
      AttemptPrefix(plan, replies, n + 2);
      forall i | 0 <= i < |tail|
        ensures !tail[i].Create?
      {
        assert tail[i] == plan[i];
        if i >= |execs| {
          assert plan[i] == exit[i - |execs|];
        }
      }
    }
    forall i | 0 < i < |log|
      ensures !log[i].Create?
    {
      if i >= |pre| {
        assert log[i] == tail[i - |pre|];
      }
    }
  }

  /** A `docker create` other than the scope's own is not among the commands the scope issues. */
  lemma ScopeAvoids(host: Host, sc: Scope, replies: nat -> Reply, n: nat, c: Cmd)
    requires c.Create? && c != Create(host.cwd, MountList(sc.volumes, host), sc.base)
    ensures c !in ScopeLog(host, sc, replies, n)
  {
    ScopeCreatesOnce(host, sc, replies, n);
  }

  /** Runs the body of a scope: each command in turn, stopping at the first that raises. */
  method RunBody(ctx: ContainerContext, body: seq<string>) returns (r: Result<()>)
    modifies ctx.engine
    ensures ctx.engine.log == old(ctx.engine.log)
            + Attempt(ExecPlan(ctx.runId, body), ctx.engine.replies, |old(ctx.engine.log)|)
    ensures r.Ok? <==> AllOk(ctx.engine.replies, |old(ctx.engine.log)|, |body|)
    ensures Reports(ctx.engine.log, ctx.engine.replies, r)
  {
    var engine := ctx.engine;
    ghost var log0 := engine.log;
    ghost var plan := ExecPlan(ctx.runId, body);
    if body == [] {
      assert Attempt(plan, engine.replies, |log0|) == [];
      return Ok(());
    }
    for i := 0 to |body|
      invariant engine.log == log0 + plan[..i]
      invariant AllOk(engine.replies, |log0|, i)
      invariant i == |body| ==> engine.log == log0 + Attempt(plan, engine.replies, |log0|)
    {
      ghost var log1 := engine.log;
      var out := ctx.Run(body[i]);
      AttemptNext(plan, engine.replies, i, log0, log1, engine.log);
      if out.Err? {
        return Err(out.error);
      }
    }
    r := Ok(());
  }


  /** The normal exit of `docker_container`: commit when there is a tag, then `docker rm -f`. */
  method ExitContainer(ctx: ContainerContext, tag: string, prefix: string, comment: string)
    returns (r: Result<()>)
    modifies ctx.engine
    ensures ctx.engine.log == old(ctx.engine.log)
            + Attempt(ExitPlan(ctx.runId, tag, prefix, comment), ctx.engine.replies, |old(ctx.engine.log)|)
    ensures r.Ok? <==> AllOk(ctx.engine.replies, |old(ctx.engine.log)|, |ExitPlan(ctx.runId, tag, prefix, comment)|)
    ensures Reports(ctx.engine.log, ctx.engine.replies, r)
  {
    var engine := ctx.engine;
    ghost var log0 := engine.log;
    ghost var commits := if tag != "" then CommitPlan(ctx.runId, tag, comment, prefix) else [];
    if tag != "" {
      var c := ctx.Commit(tag, comment, prefix);
      if c.Err? {
        AttemptThen(commits, [Rm(ctx.runId)], engine.replies, log0, engine.log, engine.log);
        return Err(c.error);
      }
    } else {
      assert Attempt(commits, engine.replies, |log0|) == [];
    }
    ghost var log1 := engine.log;
    var rm := engine.Docker(Rm(ctx.runId));
    AttemptThen(commits, [Rm(ctx.runId)], engine.replies, log0, log1, engine.log);
    if rm.Err? {
      return Err(rm.error);
    }
    r := Ok(());
  }


  /** What follows the `yield` of `docker_container`: the body, then commit and `rm -f` if the body
    * did not raise. */
  method ScopeBody(cont: ContainerContext, sc: Scope) returns (r: Result<()>)
    modifies cont.engine
    ensures cont.engine.log == old(cont.engine.log)
            + Attempt(ScopePlan(cont.runId, sc), cont.engine.replies, |old(cont.engine.log)|)
    ensures r.Ok? <==> AllOk(cont.engine.replies, |old(cont.engine.log)|, |ScopePlan(cont.runId, sc)|)
    ensures Reports(cont.engine.log, cont.engine.replies, r)
  {
    ghost var log0 := cont.engine.log;
    ghost var execs := ExecPlan(cont.runId, sc.body);
    ghost var exit := ExitPlan(cont.runId, sc.tag, sc.prefix, sc.comment);
    var body := RunBody(cont, sc.body);
    if body.Err? {
      AttemptThen(execs, exit, cont.engine.replies, log0, cont.engine.log, cont.engine.log);
      return body;
    }
    ghost var log1 := cont.engine.log;
    r := ExitContainer(cont, sc.tag, sc.prefix, sc.comment);
    AttemptThen(execs, exit, cont.engine.replies, log0, log1, cont.engine.log);
  }


  /** `with docker_container(...) as cont:` around a body of `cont.run` calls. There is no
    * try/finally around the `yield`: a body that raises skips both the commit and the removal. */
  method DockerContainer(engine: Engine, host: Host, sc: Scope) returns (r: Result<()>)
    modifies engine
    ensures engine.log == old(engine.log) + ScopeLog(host, sc, engine.replies, |old(engine.log)|)
    ensures r.Ok? <==> ScopeOk(host, sc, engine.replies, |old(engine.log)|)
    ensures Reports(engine.log, engine.replies, r)
  {
    ghost var log0 := engine.log;
    var made := NewContainerContext(engine, host, sc.base, sc.volumes);
    if made.Err? {
      ScopeLogCompose(host, sc, engine.replies, log0, engine.log, engine.log);
      return Err(made.error);
    }
    ghost var log1 := engine.log;
    r := ScopeBody(made.value, sc);
    ScopeLogCompose(host, sc, engine.replies, log0, log1, engine.log);
  }

  /** A scope run for the image it commits: the commands of the scope, and the image it leaves behind. */
  method TaggedImage(engine: Engine, host: Host, sc: Scope) returns (r: Result<()>)
    modifies engine
    ensures engine.log == old(engine.log) + ScopeLog(host, sc, engine.replies, |old(engine.log)|)
    ensures r.Ok? <==> ScopeOk(host, sc, engine.replies, |old(engine.log)|)
    ensures Reports(engine.log, engine.replies, r)
    ensures r.Ok? && sc.tag != "" ==>
              Succeeded(engine.log, engine.replies, |old(engine.log)|,
                        Commit(sc.comment, RunIdAt(engine.replies, |old(engine.log)|), sc.tag))
              && Made(engine.log, engine.replies, |old(engine.log)|, sc.tag)
              && (sc.prefix != "" ==> Made(engine.log, engine.replies, |old(engine.log)|, sc.prefix + "/" + sc.tag))
  {
    ghost var log0 := engine.log;
    r := DockerContainer(engine, host, sc);
    if r.Ok? && sc.tag != "" {
      ScopeMakes(host, sc, engine.replies, log0);
    }
  }

  /** The commands of a scope are those of `create`, then, if the container started, those of
    * the body and the exit. */
  lemma ScopeLogCompose(host: Host, sc: Scope, replies: nat -> Reply, log0: seq<Cmd>, log1: seq<Cmd>, log2: seq<Cmd>)
    requires log1 == log0 + CreateLog(host.cwd, MountList(sc.volumes, host), sc.base, replies, |log0|)
    requires !AllOk(replies, |log0|, 2) ==> log2 == log1
    requires AllOk(replies, |log0|, 2) ==>
               log2 == log1 + Attempt(ScopePlan(RunIdAt(replies, |log0|), sc), replies, |log1|)
    ensures log2 == log0 + ScopeLog(host, sc, replies, |log0|)
  {
    var pre := CreateLog(host.cwd, MountList(sc.volumes, host), sc.base, replies, |log0|);
    var tail := ScopeTail(sc, replies, |log0|);
    assert ScopeLog(host, sc, replies, |log0|) == pre + tail;
    if AllOk(replies, |log0|, 2) {
      assert |log1| == |log0| + 2;
      assert log2 == log1 + tail;
    } else {
      assert tail == [];
      assert pre + tail == pre;
    }
  }

  // ---------------------------------------------------------------------
  // build
  // ---------------------------------------------------------------------

  /** The `--prefix` and `--mirror` options (empty when not given). */
  datatype BuildArgs = BuildArgs(prefix: string, mirror: string)

  function SedCommand(from: string, to: string): string
  {
    "sed -i 's," + from + "," + to + "' /etc/apk/repositories"
  }

  function WheelInstall(extras: string): string
  {
    "pip install $(echo /root/.cache/pip/*.whl)[" + extras + "]"
  }

  function ChownCache(uid: string): string
  {
    "chown -R " + uid + " /root/.cache/pip"
  }

  function CacheVolume(tmpdir: string): string
  {
    tmpdir + ":/root/.cache/pip"
  }

  const EntrypointComment := "ENTRYPOINT [\"/usr/bin/dumb-init\", \"--\"]"

  function CmdComment(script: string): string
  {
    "CMD [\"/usr/local/bin/" + script + "\"]"
  }

  function DockerfileOf(script: string): string
  {
    "Dockerfile." + script
  }

  /** The updated distribution image `python-base`, with the mirror swapped in when one is given. */
  function PythonBaseScope(mirror: string): Scope
  {
    Scope("python:alpine", "python-base", "", "", [],
          (if mirror != "" then [SedCommand(AlpineMirrorBase, mirror)] else []) + ["apk update"])
  }

  const BindepScope := Scope("python-base", "bindep", "", "", [], ["pip install bindep"])

  /** The untagged container that builds the wheel into the cache and fills the cache with every extra. */
  function WheelScope(info: ProjectInfo, order: seq<string>, compilePackages: string, cache: string): Scope
  {
    Scope("python-base", "", "", "", [cache],
          ["chown -R $(whoami) /root/.cache/pip",
           "apk add " + compilePackages + " git",
           "python setup.py bdist_wheel -d /root/.cache/pip",
           WheelInstall(ExtraName(info.BaseContainer()) + "," + ExtraName(Join(order, ",")))])
  }

  /** The project's base image, with dumb-init as entrypoint. */
  function BaseScope(info: ProjectInfo, args: BuildArgs, packages: string, uid: string, cache: string): Scope
  {
    Scope("python-base", info.BaseContainer(), args.prefix, EntrypointComment, [cache],
          ["apk add " + packages + " dumb-init", WheelInstall(ExtraName(info.BaseContainer()))]
          + (if args.mirror != "" then [SedCommand(args.mirror, AlpineMirrorBase)] else [])
          + [ChownCache(uid)])
  }

  /** The image of one script without a Dockerfile: from the (unprefixed) base image. */
  function ScriptScope(info: ProjectInfo, script: string, prefix: string, cache: string): Scope
  {
    Scope(info.BaseContainer(), script, prefix, CmdComment(script), [cache],
          [WheelInstall(ExtraName(script))])
  }

  /** The container of the `finally` clause: gives the cache back to the host user. */
  function CleanupScope(uid: string, cache: string): Scope
  {
    Scope("python-base", "", "", "", [cache], [ChownCache(uid)])
  }

  /** Collapses carriage returns and newlines of a package list into spaces. */
  function Normalise(s: string): (r: string)
    ensures |r| == |s| && '\r' !in r && '\n' !in r
    ensures forall i :: 0 <= i < |s| ==> r[i] == (if s[i] == '\r' || s[i] == '\n' then ' ' else s[i])
  {
    ReplaceChar(ReplaceChar(s, '\r', '\n'), '\n', ' ')
  }

  /** What `bindep -b` yields when it exits with 0 or 1: its output, stripped after exit code 1. */
  function ListingOf(reply: Reply): string
  {
    if reply.exitCode == 1 then Strip(reply.stdout) else reply.stdout
  }

  /** `docker run ... bindep -b [profile]`: exit code 1 means "packages needed" and yields the stripped output. */
  method ListPackages(engine: Engine, cwd: string, profile: seq<string>) returns (r: Result<string>)
    modifies engine
    ensures engine.log == old(engine.log) + [Bindep(cwd, profile)]
    ensures var reply := engine.replies(|old(engine.log)|);
            && (reply.exitCode == 0 ==> r == Ok(reply.stdout))
            && (reply.exitCode == 1 ==> r == Ok(Strip(reply.stdout)))
            && (reply.exitCode != 0 && reply.exitCode != 1 ==> r.Err?)
    ensures Reports(engine.log, engine.replies, r)
  {
    var out := engine.Docker(Bindep(cwd, profile));
    if out.Err? && out.error.exitCode == 1 {
      r := Ok(Strip(out.error.output));
    } else {
      r := out;
    }
  }

  /** `s` has its image, built from its Dockerfile when the host has one, otherwise committed from a
    * scoped container with the `CMD` comment (and tagged under the prefix). */
  ghost predicate ScriptBuilt(log: seq<Cmd>, replies: nat -> Reply, files: set<string>,
                              s: string, prefix: string, from: nat)
  {
    && Made(log, replies, from, s)
    && (DockerfileOf(s) in files ==> Succeeded(log, replies, from, Build(DockerfileOf(s), s)))
    && (DockerfileOf(s) !in files ==>
          (exists id :: Succeeded(log, replies, from, Commit(CmdComment(s), id, s)))
          && (prefix != "" ==> Made(log, replies, from, prefix + "/" + s)))
  }

  lemma SucceededMono(log: seq<Cmd>, log': seq<Cmd>, replies: nat -> Reply, from: nat, from': nat, c: Cmd)
    requires log <= log' && from' <= from && Succeeded(log, replies, from, c)
    ensures Succeeded(log', replies, from', c)
  {
    var k :| from <= k < |log| && log[k] == c && replies(k).exitCode == 0;
    assert log'[k] == log[k];
  }

  /** What was built stays built as the log grows. */
  lemma ScriptBuiltMono(log: seq<Cmd>, log': seq<Cmd>, replies: nat -> Reply, files: set<string>,
                        s: string, prefix: string, from: nat, from': nat)
    requires log <= log' && from' <= from
    requires ScriptBuilt(log, replies, files, s, prefix, from)
    ensures ScriptBuilt(log', replies, files, s, prefix, from')
  {
    MadeMono(log, log', replies, from, from', s);
    if DockerfileOf(s) in files {
      SucceededMono(log, log', replies, from, from', Build(DockerfileOf(s), s));
    } else {
      var id :| Succeeded(log, replies, from, Commit(CmdComment(s), id, s));
      SucceededMono(log, log', replies, from, from', Commit(CmdComment(s), id, s));
      if prefix != "" {
        MadeMono(log, log', replies, from, from', prefix + "/" + s);
      }
    }
  }

  /** The commands of one script image from position `n`: one `docker build` when the host has
    * `Dockerfile.<script>`, otherwise the scope of the script's container. */
  function ScriptLog(host: Host, info: ProjectInfo, script: string, prefix: string, cache: string,
                     replies: nat -> Reply, n: nat): seq<Cmd>
  {
    if DockerfileOf(script) in host.files then [Build(DockerfileOf(script), script)]
    else ScopeLog(host, ScriptScope(info, script, prefix, cache), replies, n)
  }

  /** Every command of one script image succeeds. */
  predicate ScriptOk(host: Host, info: ProjectInfo, script: string, prefix: string, cache: string,
                     replies: nat -> Reply, n: nat)
  {
    if DockerfileOf(script) in host.files then replies(n).exitCode == 0
    else ScopeOk(host, ScriptScope(info, script, prefix, cache), replies, n)
  }

  /** The items of `items` in turn from position `n`, ending with the first that fails: `step(x, m)`
    * is what item `x` issues from position `m`, and `ok(x, m)` says whether all of it succeeded. */
  function Chain<T, C>(items: seq<T>, step: (T, nat) -> seq<C>, ok: (T, nat) -> bool, n: nat): seq<C>
    decreases |items|
  {
    if items == [] then []
    else step(items[0], n) + (if ok(items[0], n) then Chain(items[1..], step, ok, n + |step(items[0], n)|) else [])
  }

  /** Every item of `items` succeeds. */
  predicate ChainOk<T, C>(items: seq<T>, step: (T, nat) -> seq<C>, ok: (T, nat) -> bool, n: nat)
    decreases |items|
  {
    items == [] || (ok(items[0], n) && ChainOk(items[1..], step, ok, n + |step(items[0], n)|))
  }

  /** The items of `p + q` issue those of `p`, then, if every one of them succeeded, those of `q`. */
  lemma {:induction false} ChainAppend<T, C>(p: seq<T>, q: seq<T>, step: (T, nat) -> seq<C>,
                                             ok: (T, nat) -> bool, n: nat)
    ensures var first := Chain(p, step, ok, n);
            Chain(p + q, step, ok, n)
            == first + (if ChainOk(p, step, ok, n) then Chain(q, step, ok, n + |first|) else [])
    decreases |p|
  {
    if p == [] {
      assert p + q == q;
    } else {
      var head := step(p[0], n);
      var m := n + |head|;
      assert (p + q)[0] == p[0];
      assert (p + q)[1..] == p[1..] + q;
      if ok(p[0], n) {
        ChainAppend(p[1..], q, step, ok, m);
        var rest := Chain(p[1..], step, ok, m);
        var first := Chain(p, step, ok, n);
        assert first == head + rest && (ChainOk(p, step, ok, n) <==> ChainOk(p[1..], step, ok, m));
        assert n + |first| == m + |rest|;
        var more := if ChainOk(p[1..], step, ok, m) then Chain(q, step, ok, m + |rest|) else [];
        calc {
          Chain(p + q, step, ok, n);
          step((p + q)[0], n) + Chain((p + q)[1..], step, ok, m);
          head + Chain(p[1..] + q, step, ok, m);
          head + (rest + more);
          { AppendAssoc(head, rest, more); }
          first + more;
        }
      } else {
        assert Chain(p, step, ok, n) == head && !ChainOk(p, step, ok, n);
      }
    }
  }

  /** The items of `p + q` all succeed iff those of `p` do, and then those of `q`. */
  lemma {:induction false} ChainOkAppend<T, C>(p: seq<T>, q: seq<T>, step: (T, nat) -> seq<C>,
                                               ok: (T, nat) -> bool, n: nat)
    ensures ChainOk(p + q, step, ok, n)
            <==> ChainOk(p, step, ok, n) && ChainOk(q, step, ok, n + |Chain(p, step, ok, n)|)
    decreases |p|
  {
    if p == [] {
      assert p + q == q;
    } else {
      assert (p + q)[0] == p[0];
      assert (p + q)[1..] == p[1..] + q;
      if ok(p[0], n) {
        ChainOkAppend(p[1..], q, step, ok, n + |step(p[0], n)|);
      }
    }
  }

  /** The items of `p` followed by one more item `x`: those of `p`, then, if all of them
    * succeeded, what `x` issues from there; all succeed iff those of `p` and `x` do. */
  lemma ChainSnoc<T, C>(p: seq<T>, x: T, step: (T, nat) -> seq<C>, ok: (T, nat) -> bool, n: nat, m: nat)
    requires m == n + |Chain(p, step, ok, n)|
    ensures Chain(p + [x], step, ok, n) == Chain(p, step, ok, n) + (if ChainOk(p, step, ok, n) then step(x, m) else [])
    ensures ChainOk(p + [x], step, ok, n) <==> ChainOk(p, step, ok, n) && ok(x, m)
  {
    var single := [x];
    ChainAppend(p, single, step, ok, n);
    ChainOkAppend(p, single, step, ok, n);
    assert single[0] == x && single[1..] == [];
    assert Chain(single, step, ok, m) == step(x, m) + (if ok(x, m) then Chain([], step, ok, m + |step(x, m)|) else []);
    assert ChainOk(single, step, ok, m) == (ok(x, m) && ChainOk([], step, ok, m + |step(x, m)|));
  }

  /** A log holding the items of `items[..i]`, all successful, which end at position `m`, and then
    * what item `i` issues from there, holds the items of `items[..i + 1]` when item `i` succeeded,
    * and those of all of `items` otherwise. */
  lemma ChainExtend<T, C>(items: seq<T>, i: nat, step: (T, nat) -> seq<C>, ok: (T, nat) -> bool,
                          start: seq<C>, m: nat, log: seq<C>)
    requires i < |items| && ChainOk(items[..i], step, ok, |start|)
    requires m == |start| + |Chain(items[..i], step, ok, |start|)|
    requires log == start + Chain(items[..i], step, ok, |start|) + step(items[i], m)
    ensures ok(items[i], m) ==> log == start + Chain(items[..i + 1], step, ok, |start|)
                                && ChainOk(items[..i + 1], step, ok, |start|)
    ensures !ok(items[i], m) ==> log == start + Chain(items, step, ok, |start|)
                                 && !ChainOk(items, step, ok, |start|)
  {
    var n := |start|;
    var done := Chain(items[..i], step, ok, n);
    var next := step(items[i], m);
    assert items[..i] + [items[i]] == items[..i + 1];
    ChainSnoc(items[..i], items[i], step, ok, n, m);
    assert log == start + (done + next);
    if !ok(items[i], m) {
      var p, q := items[..i + 1], items[i + 1..];
      assert p + q == items;
      ChainAppend(p, q, step, ok, n);
      ChainOkAppend(p, q, step, ok, n);
    }
  }

  /** `ScriptLog` and `ScriptOk` as the steps of a chain over script names. */
  function ScriptSteps(host: Host, info: ProjectInfo, prefix: string, cache: string,
                       replies: nat -> Reply): (string, nat) -> seq<Cmd>
  {
    (s: string, m: nat) => ScriptLog(host, info, s, prefix, cache, replies, m)
  }

  function ScriptOks(host: Host, info: ProjectInfo, prefix: string, cache: string,
                     replies: nat -> Reply): (string, nat) -> bool
  {
    (s: string, m: nat) => ScriptOk(host, info, s, prefix, cache, replies, m)
  }

  /** The commands of the script images of `order` from position `n`, one script after the other,
    * ending with the first script that fails. */
  function ScriptsLog(host: Host, info: ProjectInfo, order: seq<string>, prefix: string, cache: string,
                      replies: nat -> Reply, n: nat): seq<Cmd>
  {
    Chain(order, ScriptSteps(host, info, prefix, cache, replies), ScriptOks(host, info, prefix, cache, replies), n)
  }

  /** Every script image of `order` succeeds. */
  predicate ScriptsOk(host: Host, info: ProjectInfo, order: seq<string>, prefix: string, cache: string,
                      replies: nat -> Reply, n: nat)
  {
    ChainOk(order, ScriptSteps(host, info, prefix, cache, replies), ScriptOks(host, info, prefix, cache, replies), n)
  }

  lemma ScriptStepIs(host: Host, info: ProjectInfo, s: string, prefix: string, cache: string,
                     replies: nat -> Reply, m: nat)
    ensures ScriptSteps(host, info, prefix, cache, replies)(s, m) == ScriptLog(host, info, s, prefix, cache, replies, m)
    ensures ScriptOks(host, info, prefix, cache, replies)(s, m) == ScriptOk(host, info, s, prefix, cache, replies, m)
  {
  }

  /** One script image: `docker build` when `Dockerfile.<script>` exists, a scoped container from
    * the base image otherwise. */
  method ScriptImage(engine: Engine, host: Host, info: ProjectInfo, script: string,
                     prefix: string, cache: string) returns (r: Result<()>)
    modifies engine
    ensures engine.log == old(engine.log)
              + ScriptLog(host, info, script, prefix, cache, engine.replies, |old(engine.log)|)
    ensures r.Ok? <==> ScriptOk(host, info, script, prefix, cache, engine.replies, |old(engine.log)|)
    ensures r.Ok? && script != "" ==>
              ScriptBuilt(engine.log, engine.replies, host.files, script, prefix, |old(engine.log)|)
    ensures Reports(engine.log, engine.replies, r)
  {
    ghost var log0 := engine.log;
    var dockerfile := DockerfileOf(script);
    if dockerfile in host.files {
      var built := engine.Docker(Build(dockerfile, script));
      if built.Err? {
        r := Err(built.error);
        ReportsPassed(engine.log, engine.replies, built, r);
        return;
      }
      assert engine.log[|log0|] == Build(dockerfile, script);
      assert script in Produced(engine.log[|log0|]);
    } else {
      var done := TaggedImage(engine, host, ScriptScope(info, script, prefix, cache));
      if done.Err? {
        return done;
      }
    }
    r := Ok(());
  }

  /** The loop over the scripts; the first failure ends it. */
  method ScriptImages(engine: Engine, host: Host, info: ProjectInfo, order: seq<string>,
                      prefix: string, cache: string) returns (r: Result<()>)
    modifies engine
    ensures engine.log == old(engine.log)
              + ScriptsLog(host, info, order, prefix, cache, engine.replies, |old(engine.log)|)
    ensures r.Ok? <==> ScriptsOk(host, info, order, prefix, cache, engine.replies, |old(engine.log)|)
    ensures r.Ok? ==> forall s :: s in order && s != "" ==>
              ScriptBuilt(engine.log, engine.replies, host.files, s, prefix, |old(engine.log)|)
    ensures Reports(engine.log, engine.replies, r)
  {
    ghost var start := engine.log;
    ghost var n := |engine.log|;
    ghost var step := ScriptSteps(host, info, prefix, cache, engine.replies);
    ghost var ok := ScriptOks(host, info, prefix, cache, engine.replies);
    for i := 0 to |order|
      invariant engine.log == start + Chain(order[..i], step, ok, n)
      invariant ChainOk(order[..i], step, ok, n)
      invariant forall j :: 0 <= j < i && order[j] != "" ==>
                  ScriptBuilt(engine.log, engine.replies, host.files, order[j], prefix, n)
    {
      ghost var log0 := engine.log;
      ScriptStepIs(host, info, order[i], prefix, cache, engine.replies, |log0|);
      var done := ScriptNext(engine, host, info, order, i, prefix, cache, step, ok, start);
      if done.Err? {
        return done;
      }
      forall j | 0 <= j <= i && order[j] != ""
        ensures ScriptBuilt(engine.log, engine.replies, host.files, order[j], prefix, n)
      {
        if j < i {
          ScriptBuiltMono(log0, engine.log, engine.replies, host.files, order[j], prefix, n, n);
        } else {
          ScriptBuiltMono(engine.log, engine.log, engine.replies, host.files, order[j], prefix, |log0|, n);
        }
      }
    }
    assert order[..|order|] == order;
    r := Ok(());
  }

  /** The script image of `order[i]`, after those of `order[..i]` all succeeded from `|start|` on;
    * `step` and `ok` stand for `ScriptLog` and `ScriptOk`. */
  method ScriptNext(engine: Engine, host: Host, info: ProjectInfo, order: seq<string>, i: nat,
                    prefix: string, cache: string, ghost step: (string, nat) -> seq<Cmd>,
                    ghost ok: (string, nat) -> bool, ghost start: seq<Cmd>) returns (r: Result<()>)
    requires i < |order|
    requires engine.log == start + Chain(order[..i], step, ok, |start|) && ChainOk(order[..i], step, ok, |start|)
    requires step(order[i], |engine.log|) == ScriptLog(host, info, order[i], prefix, cache, engine.replies, |engine.log|)
    requires ok(order[i], |engine.log|) == ScriptOk(host, info, order[i], prefix, cache, engine.replies, |engine.log|)
    modifies engine
    ensures old(engine.log) <= engine.log
    ensures r.Ok? ==> engine.log == start + Chain(order[..i + 1], step, ok, |start|)
                      && ChainOk(order[..i + 1], step, ok, |start|)
    ensures r.Ok? && order[i] != "" ==>
              ScriptBuilt(engine.log, engine.replies, host.files, order[i], prefix, |old(engine.log)|)
    ensures r.Err? ==> engine.log == start + Chain(order, step, ok, |start|) && !ChainOk(order, step, ok, |start|)
    ensures Reports(engine.log, engine.replies, r)
  {
    ghost var log0 := engine.log;
    ghost var next := step(order[i], |log0|);
    r := ScriptImage(engine, host, info, order[i], prefix, cache);
    assert engine.log == log0 + next;
    assert r.Ok? <==> ok(order[i], |log0|);
    ChainExtend(order, i, step, ok, start, |log0|, engine.log);
  }

  /** The commands the body of the `try` issues from position `n`: the `wheel` scope, then, if it
    * ran through, the `base` scope and the script images of `order` (each issuing `step` and
    * succeeding as `ok` says). */
  function TryLog(host: Host, wheel: Scope, base: Scope, order: seq<string>, step: (string, nat) -> seq<Cmd>,
                  ok: (string, nat) -> bool, replies: nat -> Reply, n: nat): seq<Cmd>
  {
    ScopeLog(host, wheel, replies, n)
    + if ScopeOk(host, wheel, replies, n)
      then ImagesLog(host, base, order, step, ok, replies, ScopeEnd(host, wheel, replies, n))
      else []
  }

  /** Every command of the body of the `try` succeeds. */
  predicate TryOk(host: Host, wheel: Scope, base: Scope, order: seq<string>, step: (string, nat) -> seq<Cmd>,
                  ok: (string, nat) -> bool, replies: nat -> Reply, n: nat)
  {
    && ScopeOk(host, wheel, replies, n)
    && ImagesOk(host, base, order, step, ok, replies, ScopeEnd(host, wheel, replies, n))
  }

  /** The commands of the `base` scope from position `n`, then, if it ran through, those of the
    * script images. */
  function ImagesLog(host: Host, base: Scope, order: seq<string>, step: (string, nat) -> seq<Cmd>,
                     ok: (string, nat) -> bool, replies: nat -> Reply, n: nat): seq<Cmd>
  {
    ScopeLog(host, base, replies, n)
    + if ScopeOk(host, base, replies, n)
      then Chain(order, step, ok, ScopeEnd(host, base, replies, n))
      else []
  }

  /** Every command of the base image and of the script images succeeds. */
  predicate ImagesOk(host: Host, base: Scope, order: seq<string>, step: (string, nat) -> seq<Cmd>,
                     ok: (string, nat) -> bool, replies: nat -> Reply, n: nat)
  {
    && ScopeOk(host, base, replies, n)
    && ChainOk(order, step, ok, ScopeEnd(host, base, replies, n))
  }

  /** Once the wheel scope ran through, the body of the `try` goes on with the base scope. */
  lemma TryLogAfterWheel(host: Host, wheel: Scope, base: Scope, order: seq<string>, step: (string, nat) -> seq<Cmd>,
                         ok: (string, nat) -> bool, replies: nat -> Reply, n: nat, m: nat)
    requires m == ScopeEnd(host, wheel, replies, n) && ScopeOk(host, wheel, replies, n)
    ensures TryLog(host, wheel, base, order, step, ok, replies, n)
            == ScopeLog(host, wheel, replies, n) + ImagesLog(host, base, order, step, ok, replies, m)
    ensures TryOk(host, wheel, base, order, step, ok, replies, n) <==> ImagesOk(host, base, order, step, ok, replies, m)
  {
  }

  /** Once the base scope ran through, the script images follow. */
  lemma ImagesLogAfterBase(host: Host, base: Scope, order: seq<string>, step: (string, nat) -> seq<Cmd>,
                           ok: (string, nat) -> bool, replies: nat -> Reply, n: nat, m: nat)
    requires m == ScopeEnd(host, base, replies, n) && ScopeOk(host, base, replies, n)
    ensures ImagesLog(host, base, order, step, ok, replies, n)
            == ScopeLog(host, base, replies, n) + Chain(order, step, ok, m)
    ensures ImagesOk(host, base, order, step, ok, replies, n) <==> ChainOk(order, step, ok, m)
  {
  }

  /** The body of the `try`: the wheel container, the base image, then the script images. */
  method TryBody(engine: Engine, host: Host, info: ProjectInfo, order: seq<string>, args: BuildArgs,
                 packages: string, compilePackages: string, cache: string) returns (r: Result<()>)
    modifies engine
    ensures engine.log == old(engine.log)
              + TryLog(host, WheelScope(info, order, compilePackages, cache), BaseScope(info, args, packages, host.uid, cache),
                       order, ScriptSteps(host, info, args.prefix, cache, engine.replies),
                       ScriptOks(host, info, args.prefix, cache, engine.replies), engine.replies, |old(engine.log)|)
    ensures r.Ok? <==> TryOk(host, WheelScope(info, order, compilePackages, cache),
                             BaseScope(info, args, packages, host.uid, cache),
                             order, ScriptSteps(host, info, args.prefix, cache, engine.replies),
                             ScriptOks(host, info, args.prefix, cache, engine.replies), engine.replies, |old(engine.log)|)
    ensures r.Ok? ==> Made(engine.log, engine.replies, |old(engine.log)|, info.BaseContainer())
    ensures r.Ok? && args.prefix != "" ==>
              Made(engine.log, engine.replies, |old(engine.log)|, args.prefix + "/" + info.BaseContainer())
    ensures r.Ok? ==> forall s :: s in order && s != "" ==>
              ScriptBuilt(engine.log, engine.replies, host.files, s, args.prefix, |old(engine.log)|)
    ensures Reports(engine.log, engine.replies, r)
  {
    ghost var log0 := engine.log;
    ghost var wheel := WheelScope(info, order, compilePackages, cache);
    ghost var base := BaseScope(info, args, packages, host.uid, cache);
    ghost var step := ScriptSteps(host, info, args.prefix, cache, engine.replies);
    ghost var ok := ScriptOks(host, info, args.prefix, cache, engine.replies);
    ghost var w := ScopeLog(host, wheel, engine.replies, |log0|);
    var wheels := TaggedImage(engine, host, WheelScope(info, order, compilePackages, cache));
    if wheels.Err? {
      return wheels;
    }
    ghost var log1 := engine.log;
    assert |log1| == |log0| + |w|;
    ghost var rest := ImagesLog(host, base, order, step, ok, engine.replies, |log1|);
    r := BaseAndScripts(engine, host, info, order, args, packages, cache);
    assert engine.log == log1 + rest;
    AppendAssoc(log0, w, rest);
    TryLogAfterWheel(host, wheel, base, order, step, ok, engine.replies, |log0|, |log1|);
    if r.Ok? {
      MadeFrom(engine.log, engine.replies, |log0|, |log1|, host.files, info.BaseContainer(), args.prefix, order);
    }
  }

  /** The base image, then the script images. */
  method BaseAndScripts(engine: Engine, host: Host, info: ProjectInfo, order: seq<string>, args: BuildArgs,
                        packages: string, cache: string) returns (r: Result<()>)
    modifies engine
    ensures engine.log == old(engine.log)
              + ImagesLog(host, BaseScope(info, args, packages, host.uid, cache), order,
                          ScriptSteps(host, info, args.prefix, cache, engine.replies),
                          ScriptOks(host, info, args.prefix, cache, engine.replies), engine.replies, |old(engine.log)|)
    ensures r.Ok? <==> ImagesOk(host, BaseScope(info, args, packages, host.uid, cache), order,
                                ScriptSteps(host, info, args.prefix, cache, engine.replies),
                                ScriptOks(host, info, args.prefix, cache, engine.replies), engine.replies,
                                |old(engine.log)|)
    ensures r.Ok? ==> Made(engine.log, engine.replies, |old(engine.log)|, info.BaseContainer())
    ensures r.Ok? && args.prefix != "" ==>
              Made(engine.log, engine.replies, |old(engine.log)|, args.prefix + "/" + info.BaseContainer())
    ensures r.Ok? ==> forall s :: s in order && s != "" ==>
              ScriptBuilt(engine.log, engine.replies, host.files, s, args.prefix, |old(engine.log)|)
    ensures Reports(engine.log, engine.replies, r)
  {
    ghost var log0 := engine.log;
    ghost var base := BaseScope(info, args, packages, host.uid, cache);
    ghost var step := ScriptSteps(host, info, args.prefix, cache, engine.replies);
    ghost var ok := ScriptOks(host, info, args.prefix, cache, engine.replies);
    ghost var b := ScopeLog(host, base, engine.replies, |log0|);
    var made := TaggedImage(engine, host, BaseScope(info, args, packages, host.uid, cache));
    if made.Err? {
      return made;
    }
    ghost var log1 := engine.log;
    assert |log1| == |log0| + |b|;
    ghost var sl := Chain(order, step, ok, |log1|);
    r := ScriptImages(engine, host, info, order, args.prefix, cache);
    assert engine.log == log1 + sl;
    AppendAssoc(log0, b, sl);
    ImagesLogAfterBase(host, base, order, step, ok, engine.replies, |log0|, |log1|);
    if r.Ok? {
      TryMade(log1, engine.log, engine.replies, |log0|, |log0|, host.files, info.BaseContainer(),
              args.prefix, order);
    }
  }

  /** What was made from position `n1` on was made from any earlier position `n0` on. */
  lemma MadeFrom(log: seq<Cmd>, replies: nat -> Reply, n0: nat, n1: nat, files: set<string>, base: string,
                 prefix: string, order: seq<string>)
    requires n0 <= n1
    requires Made(log, replies, n1, base)
    requires prefix != "" ==> Made(log, replies, n1, prefix + "/" + base)
    requires forall s :: s in order && s != "" ==> ScriptBuilt(log, replies, files, s, prefix, n1)
    ensures Made(log, replies, n0, base)
    ensures prefix != "" ==> Made(log, replies, n0, prefix + "/" + base)
    ensures forall s :: s in order && s != "" ==> ScriptBuilt(log, replies, files, s, prefix, n0)
  {
    MadeMono(log, log, replies, n1, n0, base);
    if prefix != "" {
      MadeMono(log, log, replies, n1, n0, prefix + "/" + base);
    }
    forall s | s in order && s != ""
      ensures ScriptBuilt(log, replies, files, s, prefix, n0)
    {
      ScriptBuiltMono(log, log, replies, files, s, prefix, n1, n0);
    }
  }

  /** What the base scope made and what the script loop built, seen from the start of the `try`. */
  lemma TryMade(log2: seq<Cmd>, log3: seq<Cmd>, replies: nat -> Reply, n0: nat, n1: nat,
                files: set<string>, base: string, prefix: string, order: seq<string>)
    requires log2 <= log3 && n0 <= n1
    requires Made(log2, replies, n1, base)
    requires prefix != "" ==> Made(log2, replies, n1, prefix + "/" + base)
    requires forall s :: s in order && s != "" ==> ScriptBuilt(log3, replies, files, s, prefix, |log2|)
    ensures Made(log3, replies, n0, base)
    ensures prefix != "" ==> Made(log3, replies, n0, prefix + "/" + base)
    ensures forall s :: s in order && s != "" ==> ScriptBuilt(log3, replies, files, s, prefix, n0)
  {
    MadeMono(log2, log3, replies, n1, n0, base);
    if prefix != "" {
      MadeMono(log2, log3, replies, n1, n0, prefix + "/" + base);
    }
    forall s | s in order && s != ""
      ensures ScriptBuilt(log3, replies, files, s, prefix, n0)
    {
      ScriptBuiltMono(log3, log3, replies, files, s, prefix, |log2|, n0);
    }
  }


  /** Python's iteration over a set: some order of its elements, each once. */
  method Enumerate(s: set<string>) returns (r: seq<string>)
    ensures |r| == |s| && forall x :: x in r <==> x in s
  {
    r := [];
    var rest := s;
    while rest != {}
      invariant rest <= s
      invariant forall x :: x in r <==> x in s && x !in rest
      invariant |r| + |rest| == |s|
      decreases |rest|
    {
      var x :| x in rest;
      r := r + [x];
      rest := rest - {x};
    }
  }

  /** The cleanup container of the `finally` clause, which the steps before the `try` never create. */
  function CleanupCreate(host: Host, tmpdir: string): Cmd
  {
    Create(host.cwd, MountList([CacheVolume(tmpdir)], host), "python-base")
  }

  /** The command `c` is not issued at position `from` or later. */
  ghost predicate NotIssued(log: seq<Cmd>, from: nat, c: Cmd)
  {
    forall k :: from <= k < |log| ==> log[k] != c
  }

  lemma NotIssuedAppend(log: seq<Cmd>, more: seq<Cmd>, from: nat, c: Cmd)
    requires NotIssued(log, from, c) && c !in more
    ensures NotIssued(log + more, from, c)
  {
    forall k | from <= k < |log + more|
      ensures (log + more)[k] != c
    {
      if k >= |log| {
        assert (log + more)[k] == more[k - |log|];
      }
    }
  }

  /** A scope whose own `docker create` is not `c` does not issue `c`. */
  lemma NotIssuedPastScope(log0: seq<Cmd>, log1: seq<Cmd>, from: nat, c: Cmd)
    requires log0 <= log1 && |log0| < |log1| && from <= |log0| && c.Create? && log1[|log0|] != c
    requires forall k :: |log0| < k < |log1| ==> !log1[k].Create?
    requires NotIssued(log0, from, c)
    ensures NotIssued(log1, from, c)
  {
    forall k | from <= k < |log1|
      ensures log1[k] != c
    {
      if k < |log0| {
        assert log1[k] == log0[k];
      }
    }
  }

  /** The position right after the commands a scope issues from position `n`. */
  function ScopeEnd(host: Host, sc: Scope, replies: nat -> Reply, n: nat): nat
  {
    n + |ScopeLog(host, sc, replies, n)|
  }

  /** The commands of scope `a` from position `n`, then, if it ran through, those of scope `b`. */
  function ScopesLog(host: Host, a: Scope, b: Scope, replies: nat -> Reply, n: nat): seq<Cmd>
  {
    ScopeLog(host, a, replies, n)
    + if ScopeOk(host, a, replies, n) then ScopeLog(host, b, replies, ScopeEnd(host, a, replies, n)) else []
  }

  /** Both scopes run through, one after the other. */
  predicate ScopesOk(host: Host, a: Scope, b: Scope, replies: nat -> Reply, n: nat)
  {
    ScopeOk(host, a, replies, n) && ScopeOk(host, b, replies, ScopeEnd(host, a, replies, n))
  }

  /** Two scopes in turn issue no `docker create` but their own. */
  lemma ScopesAvoid(host: Host, a: Scope, b: Scope, replies: nat -> Reply, pre: seq<Cmd>, c: Cmd)
    requires c.Create? && c != Create(host.cwd, MountList(a.volumes, host), a.base)
                       && c != Create(host.cwd, MountList(b.volumes, host), b.base)
    ensures NotIssued(pre + ScopesLog(host, a, b, replies, |pre|), |pre|, c)
  {
    var n := |pre|;
    var first := ScopeLog(host, a, replies, n);
    ScopeAvoids(host, a, replies, n, c);
    if ScopeOk(host, a, replies, n) {
      ScopeAvoids(host, b, replies, ScopeEnd(host, a, replies, n), c);
      NotIssuedAfter(pre, first, ScopeLog(host, b, replies, ScopeEnd(host, a, replies, n)), c);
    } else {
      NotIssuedAfter(pre, first, [], c);
    }
  }

  /** A command in neither of two pieces is not issued after `pre`. */
  lemma NotIssuedAfter(pre: seq<Cmd>, first: seq<Cmd>, rest: seq<Cmd>, c: Cmd)
    requires c !in first && c !in rest
    ensures NotIssued(pre + (first + rest), |pre|, c)
  {
    var more := first + rest;
    forall k | |pre| <= k < |pre + more|
      ensures (pre + more)[k] != c
    {
      assert (pre + more)[k] == more[k - |pre|];
    }
  }

  /** Two tagged scopes that both run through leave both images behind. */
  lemma ScopesMake(host: Host, a: Scope, b: Scope, replies: nat -> Reply, pre: seq<Cmd>)
    requires ScopesOk(host, a, b, replies, |pre|) && a.tag != "" && b.tag != ""
    ensures Made(pre + ScopesLog(host, a, b, replies, |pre|), replies, |pre|, a.tag)
    ensures Made(pre + ScopesLog(host, a, b, replies, |pre|), replies, |pre|, b.tag)
  {
    var n := |pre|;
    var first := ScopeLog(host, a, replies, n);
    var second := ScopeLog(host, b, replies, ScopeEnd(host, a, replies, n));
    ScopeMakes(host, a, replies, pre);
    assert |pre + first| == ScopeEnd(host, a, replies, n);
    ScopeMakes(host, b, replies, pre + first);
    AppendAssoc(pre, first, second);
    MadeMono(pre + first, pre + first + second, replies, n, n, a.tag);
    MadeMono(pre + first + second, pre + first + second, replies, n + |first|, n, b.tag);
  }

  /** The `python-base` and `bindep` images, each from a scoped container: `a` and `b` stand for
    * their two scopes, tagged and without volumes. */
  method BaseImages(engine: Engine, host: Host, a: Scope, b: Scope, tmpdir: string) returns (r: Result<()>)
    requires a.volumes == [] && b.volumes == [] && a.tag != "" && b.tag != ""
    modifies engine
    ensures engine.log == old(engine.log) + ScopesLog(host, a, b, engine.replies, |old(engine.log)|)
    ensures r.Ok? <==> ScopesOk(host, a, b, engine.replies, |old(engine.log)|)
    ensures NotIssued(engine.log, |old(engine.log)|, CleanupCreate(host, tmpdir))
    ensures Reports(engine.log, engine.replies, r)
    ensures r.Ok? ==> Made(engine.log, engine.replies, |old(engine.log)|, a.tag)
                      && Made(engine.log, engine.replies, |old(engine.log)|, b.tag)
  {
    ghost var log0 := engine.log;
    ghost var n := |log0|;
    ghost var first := ScopeLog(host, a, engine.replies, n);
    ScopesAvoid(host, a, b, engine.replies, log0, CleanupCreate(host, tmpdir));
    var updated := DockerContainer(engine, host, a);
    if updated.Err? {
      assert first + [] == first;
      return Err(updated.error);
    }
    assert |engine.log| == ScopeEnd(host, a, engine.replies, n);
    ghost var second := ScopeLog(host, b, engine.replies, ScopeEnd(host, a, engine.replies, n));
    var bindep := DockerContainer(engine, host, b);
    AppendAssoc(log0, first, second);
    if bindep.Err? {
      return Err(bindep.error);
    }
    ScopesMake(host, a, b, engine.replies, log0);
    r := Ok(());
  }

  /** The two package lists read off the `bindep` runs at positions `k` and `k + 1`: the output
    * (stripped after exit code 1) with carriage returns and newlines turned into spaces. */
  function Listings(replies: nat -> Reply, k: nat): (string, string)
  {
    (Normalise(ListingOf(replies(k))), Normalise(ListingOf(replies(k + 1))))
  }

  /** A `bindep` run that yields a package list: exit code 0, or 1 for "packages needed". */
  predicate Listed(reply: Reply)
  {
    reply.exitCode == 0 || reply.exitCode == 1
  }

  /** The position right after the commands of two scopes in turn from position `n`. */
  function ScopesEnd(host: Host, a: Scope, b: Scope, replies: nat -> Reply, n: nat): nat
  {
    n + |ScopesLog(host, a, b, replies, n)|
  }

  /** The `bindep` commands of the two listings from position `k`: the run-time one, then, if
    * it did not fail, the compile-time one. */
  function ListsLog(cwd: string, replies: nat -> Reply, k: nat): seq<Cmd>
  {
    [Bindep(cwd, [])] + if Listed(replies(k)) then [Bindep(cwd, ["compile"])] else []
  }

  /** Both listings from position `k` yield a package list. */
  predicate ListsOk(replies: nat -> Reply, k: nat)
  {
    Listed(replies(k)) && Listed(replies(k + 1))
  }

  /** The commands `build` issues before the `try`, from position `n`, with `a` and `b` the
    * `python-base` and `bindep` scopes: the two scopes, then, if both ran through, the two
    * listings. */
  function PrepareLog(host: Host, a: Scope, b: Scope, replies: nat -> Reply, n: nat): seq<Cmd>
  {
    ScopesLog(host, a, b, replies, n)
    + if ScopesOk(host, a, b, replies, n) then ListsLog(host.cwd, replies, ScopesEnd(host, a, b, replies, n)) else []
  }

  /** Everything before the `try` succeeds; the listings may exit with 1. */
  predicate PrepareOk(host: Host, a: Scope, b: Scope, replies: nat -> Reply, n: nat)
  {
    ScopesOk(host, a, b, replies, n) && ListsOk(replies, ScopesEnd(host, a, b, replies, n))
  }

  /** The two package listings, for the run-time and the compile-time profile, normalised. */
  method PackageLists(engine: Engine, cwd: string) returns (r: Result<(string, string)>)
    modifies engine
    ensures engine.log == old(engine.log) + ListsLog(cwd, engine.replies, |old(engine.log)|)
    ensures forall k :: |old(engine.log)| <= k < |engine.log| ==> engine.log[k].Bindep?
    ensures r.Ok? <==> ListsOk(engine.replies, |old(engine.log)|)
    ensures r.Ok? ==> r.value == Listings(engine.replies, |old(engine.log)|)
    ensures Reports(engine.log, engine.replies, r)
  {
    var listed := ListPackages(engine, cwd, []);
    if listed.Err? {
      r := Err(listed.error);
      ReportsPassed(engine.log, engine.replies, listed, r);
      return;
    }
    var compileListed := ListPackages(engine, cwd, ["compile"]);
    if compileListed.Err? {
      r := Err(compileListed.error);
      ReportsPassed(engine.log, engine.replies, compileListed, r);
      return;
    }
    r := Ok((Normalise(listed.value), Normalise(compileListed.value)));
  }

  /** Everything `build` does before the `try`: the `python-base` and `bindep` images (from the
    * scopes `a` and `b`), then the two package lists. The cleanup container is not among these
    * commands. */
  method Prepare(engine: Engine, host: Host, a: Scope, b: Scope, tmpdir: string)
    returns (r: Result<(string, string)>)
    requires a.volumes == [] && b.volumes == [] && a.tag != "" && b.tag != ""
    modifies engine
    ensures engine.log == old(engine.log) + PrepareLog(host, a, b, engine.replies, |old(engine.log)|)
    ensures r.Ok? <==> PrepareOk(host, a, b, engine.replies, |old(engine.log)|)
    ensures r.Ok? ==> r.value == Listings(engine.replies, ScopesEnd(host, a, b, engine.replies, |old(engine.log)|))
    ensures NotIssued(engine.log, |old(engine.log)|, CleanupCreate(host, tmpdir))
    ensures Reports(engine.log, engine.replies, r)
    ensures r.Ok? ==> Made(engine.log, engine.replies, |old(engine.log)|, a.tag)
                      && Made(engine.log, engine.replies, |old(engine.log)|, b.tag)
  {
    ghost var log0 := engine.log;
    ghost var n := |log0|;
    ghost var images := ScopesLog(host, a, b, engine.replies, n);
    ghost var k := ScopesEnd(host, a, b, engine.replies, n);
    var made := BaseImages(engine, host, a, b, tmpdir);
    if made.Err? {
      assert images + [] == images;
      r := Err(made.error);
      ReportsPassed(engine.log, engine.replies, made, r);
      return;
    }
    ghost var log1 := engine.log;
    assert |log1| == k;
    r := PackageLists(engine, host.cwd);
    AppendAssoc(log0, images, ListsLog(host.cwd, engine.replies, k));
    NotIssuedPastLists(log0, log1, engine.log, CleanupCreate(host, tmpdir));
    if r.Ok? {
      MadeMono(log1, engine.log, engine.replies, n, n, a.tag);
      MadeMono(log1, engine.log, engine.replies, n, n, b.tag);
    }
  }

  lemma NotIssuedPastLists(log0: seq<Cmd>, log1: seq<Cmd>, log2: seq<Cmd>, c: Cmd)
    requires |log0| <= |log1| && log1 <= log2 && c.Create? && NotIssued(log1, |log0|, c)
    requires forall k :: |log1| <= k < |log2| ==> log2[k].Bindep?
    ensures NotIssued(log2, |log0|, c)
  {
    forall k | |log0| <= k < |log2|
      ensures log2[k] != c
    {
      if k < |log1| {
        assert log2[k] == log1[k];
      }
    }
  }

  /** The commands of the body of the `try` from position `n`, for the project `info`, the scripts
    * in the order `order`, the two package lists and the cache volume. */
  function BuildTryLog(host: Host, info: ProjectInfo, order: seq<string>, args: BuildArgs, packages: string,
                       compilePackages: string, cache: string, replies: nat -> Reply, n: nat): seq<Cmd>
  {
    TryLog(host, WheelScope(info, order, compilePackages, cache), BaseScope(info, args, packages, host.uid, cache),
           order, ScriptSteps(host, info, args.prefix, cache, replies), ScriptOks(host, info, args.prefix, cache, replies),
           replies, n)
  }

  /** Every command of the body of the `try` succeeds. */
  predicate BuildTryOk(host: Host, info: ProjectInfo, order: seq<string>, args: BuildArgs, packages: string,
                       compilePackages: string, cache: string, replies: nat -> Reply, n: nat)
  {
    TryOk(host, WheelScope(info, order, compilePackages, cache), BaseScope(info, args, packages, host.uid, cache),
          order, ScriptSteps(host, info, args.prefix, cache, replies), ScriptOks(host, info, args.prefix, cache, replies),
          replies, n)
  }

  /** The `try` and its `finally`: the body, then the cleanup container whatever the body did. The
    * build succeeds iff both do; a failing cleanup reports its own command, and otherwise a
    * failure is the body's. */
  method TryFinally(engine: Engine, host: Host, info: ProjectInfo, order: seq<string>, args: BuildArgs,
                    packages: string, compilePackages: string, tmpdir: string)
    returns (r: Result<()>, ghost cleanupAt: nat)
    modifies engine
    ensures var cache := CacheVolume(tmpdir);
            var body := BuildTryLog(host, info, order, args, packages, compilePackages, cache,
                                    engine.replies, |old(engine.log)|);
            var cleanup := CleanupScope(host.uid, cache);
            && cleanupAt == |old(engine.log)| + |body|
            && engine.log == old(engine.log) + body + ScopeLog(host, cleanup, engine.replies, cleanupAt)
            && (r.Ok? <==> BuildTryOk(host, info, order, args, packages, compilePackages, cache,
                                      engine.replies, |old(engine.log)|)
                           && ScopeOk(host, cleanup, engine.replies, cleanupAt))
            && (ScopeOk(host, cleanup, engine.replies, cleanupAt) ==> Reports(old(engine.log) + body, engine.replies, r))
            && (!ScopeOk(host, cleanup, engine.replies, cleanupAt) ==> Reports(engine.log, engine.replies, r))
    ensures r.Ok? ==> Made(engine.log, engine.replies, |old(engine.log)|, info.BaseContainer())
    ensures r.Ok? && args.prefix != "" ==>
              Made(engine.log, engine.replies, |old(engine.log)|, args.prefix + "/" + info.BaseContainer())
    ensures r.Ok? ==> forall s :: s in order && s != "" ==>
              ScriptBuilt(engine.log, engine.replies, host.files, s, args.prefix, |old(engine.log)|)
  {
    ghost var log0 := engine.log;
    var cache := CacheVolume(tmpdir);
    ghost var tried := BuildTryLog(host, info, order, args, packages, compilePackages, cache, engine.replies, |log0|);
    ghost var triedOk := BuildTryOk(host, info, order, args, packages, compilePackages, cache, engine.replies, |log0|);
    var body := TryBody(engine, host, info, order, args, packages, compilePackages, cache);
    assert engine.log == log0 + tried && (body.Ok? <==> triedOk);
    cleanupAt := |engine.log|;
    ghost var log1 := engine.log;
    ghost var cleanup := CleanupScope(host.uid, cache);
    ghost var c := ScopeLog(host, cleanup, engine.replies, cleanupAt);
    ghost var cleanupOk := ScopeOk(host, cleanup, engine.replies, cleanupAt);
    r := Finally(engine, host, tmpdir, body);
    assert engine.log == log1 + c;
    assert cleanupOk ==> r == body;
    if r.Ok? {
      BuiltStays(log1, engine.log, engine.replies, |log0|, host.files, info.BaseContainer(), args.prefix, order);
    }
  }

  /** The base image and the script images made from position `n` are still there as the log grows. */
  lemma BuiltStays(log: seq<Cmd>, log': seq<Cmd>, replies: nat -> Reply, n: nat, files: set<string>,
                   base: string, prefix: string, order: seq<string>)
    requires log <= log'
    requires Made(log, replies, n, base)
    requires prefix != "" ==> Made(log, replies, n, prefix + "/" + base)
    requires forall s :: s in order && s != "" ==> ScriptBuilt(log, replies, files, s, prefix, n)
    ensures Made(log', replies, n, base)
    ensures prefix != "" ==> Made(log', replies, n, prefix + "/" + base)
    ensures forall s :: s in order && s != "" ==> ScriptBuilt(log', replies, files, s, prefix, n)
  {
    MadeMono(log, log', replies, n, n, base);
    if prefix != "" {
      MadeMono(log, log', replies, n, n, prefix + "/" + base);
    }
    forall s | s in order && s != ""
      ensures ScriptBuilt(log', replies, files, s, prefix, n)
    {
      ScriptBuiltMono(log, log', replies, files, s, prefix, n, n);
    }
  }

  /** The `finally` clause: the cleanup container runs whatever the body did; an exception it raises
    * replaces the body's outcome. */
  method Finally(engine: Engine, host: Host, tmpdir: string, body: Result<()>) returns (r: Result<()>)
    modifies engine
    ensures engine.log == old(engine.log)
              + ScopeLog(host, CleanupScope(host.uid, CacheVolume(tmpdir)), engine.replies, |old(engine.log)|)
    ensures ScopeOk(host, CleanupScope(host.uid, CacheVolume(tmpdir)), engine.replies, |old(engine.log)|) ==> r == body
    ensures !ScopeOk(host, CleanupScope(host.uid, CacheVolume(tmpdir)), engine.replies, |old(engine.log)|) ==>
              r.Err? && Reports(engine.log, engine.replies, r)
  {
    var cleanup := DockerContainer(engine, host, CleanupScope(host.uid, CacheVolume(tmpdir)));
    if cleanup.Err? {
      r := cleanup;
    } else {
      r := body;
    }
  }

  /**
   * What `build` leaves in the log once it entered the `try` at position `tryAt` with the two
   * package lists read off the `bindep` runs: up to `tryAt`, everything issued before the `try`
   * (without the cleanup container); from `tryAt` to `cleanupAt`, the body of the `try` for the
   * scripts in the order `order`; from `cleanupAt` on, the cleanup scope of the `finally`. The
   * build succeeds iff both the body and the cleanup ran through; a failure reports the body's
   * failing command when the cleanup ran through, and the cleanup's otherwise.
   */
  ghost predicate TryRan(host: Host, info: ProjectInfo, args: BuildArgs, a: Scope, b: Scope, tmpdir: string, log0: seq<Cmd>,
                         log: seq<Cmd>, replies: nat -> Reply, r: Result<()>, tryAt: nat, cleanupAt: nat,
                         order: seq<string>)
  {
    var cache := CacheVolume(tmpdir);
    var lists := Listings(replies, ScopesEnd(host, a, b, replies, |log0|));
    var cleanup := CleanupScope(host.uid, cache);
    && |log0| + 2 <= tryAt <= cleanupAt <= |log|
    && |order| == |info.scripts| && (forall x :: x in order <==> x in info.scripts)
    && log[..tryAt] == log0 + PrepareLog(host, a, b, replies, |log0|)
    && NotIssued(log[..tryAt], |log0|, CleanupCreate(host, tmpdir))
    && log[tryAt..cleanupAt] == BuildTryLog(host, info, order, args, lists.0, lists.1, cache, replies, tryAt)
    && log[cleanupAt..] == ScopeLog(host, cleanup, replies, cleanupAt)
    && (r.Ok? <==> BuildTryOk(host, info, order, args, lists.0, lists.1, cache, replies, tryAt)
                   && ScopeOk(host, cleanup, replies, cleanupAt))
    && (ScopeOk(host, cleanup, replies, cleanupAt) ==> Reports(log[..cleanupAt], replies, r))
    && (!ScopeOk(host, cleanup, replies, cleanupAt) ==> Reports(log, replies, r))
  }

  /** Every image a successful build makes, made from position `n` on: `python-base`, `bindep`,
    * the project's base image (and its prefixed tag) and one image per script. */
  ghost predicate AllMade(log: seq<Cmd>, replies: nat -> Reply, n: nat, files: set<string>, info: ProjectInfo,
                          prefix: string)
  {
    && Made(log, replies, n, "python-base") && Made(log, replies, n, "bindep")
    && Made(log, replies, n, info.BaseContainer())
    && (prefix != "" ==> Made(log, replies, n, prefix + "/" + info.BaseContainer()))
    && forall s :: s in info.scripts && s != "" ==> ScriptBuilt(log, replies, files, s, prefix, n)
  }

  /**
   * `build`. The project info is read first; a missing option ends the build before any
   * command. The rest is `BuildProject`. `entered` says whether the `try` was reached, `tryAt`
   * and `cleanupAt` where in the log it and its `finally` begin, and `order` is the order in
   * which the set of scripts is iterated.
   */
  method BuildImages(engine: Engine, host: Host, cfg: SetupCfg, args: BuildArgs, tmpdir: string)
    returns (r: Result<()>, ghost entered: bool, ghost tryAt: nat, ghost cleanupAt: nat, ghost order: seq<string>)
    modifies engine
    ensures !CfgComplete(cfg) ==> r.Err? && engine.log == old(engine.log)
    ensures CfgComplete(cfg) ==> (entered <==> PrepareOk(host, PythonBaseScope(args.mirror), BindepScope, engine.replies, |old(engine.log)|))
    ensures !entered && CfgComplete(cfg) ==>
              && r.Err? && Reports(engine.log, engine.replies, r)
              && engine.log == old(engine.log) + PrepareLog(host, PythonBaseScope(args.mirror), BindepScope, engine.replies, |old(engine.log)|)
              && NotIssued(engine.log, |old(engine.log)|, CleanupCreate(host, tmpdir))
    ensures entered ==> CfgComplete(cfg)
    ensures entered ==> TryRan(host, InfoOf(cfg), args, PythonBaseScope(args.mirror), BindepScope, tmpdir,
                               old(engine.log), engine.log, engine.replies, r, tryAt, cleanupAt, order)
    ensures r.Ok? ==> entered && AllMade(engine.log, engine.replies, |old(engine.log)|, host.files, InfoOf(cfg), args.prefix)
  {
    entered, tryAt, cleanupAt, order := false, 0, 0, [];
    var loaded := LoadProjectInfo(cfg);
    if loaded.Err? {
      r := Err(loaded.error);
      return;
    }
    r, entered, tryAt, cleanupAt, order := BuildProject(engine, host, loaded.value, args, PythonBaseScope(args.mirror),
                                                        BindepScope, tmpdir);
  }

  /**
   * `build` once the project info is read: the `python-base` and `bindep` images are made and the
   * two package lists taken, all before the `try`; a failure there ends the build without the
   * cleanup container. Inside the temporary directory, the `try` builds the wheel, the base image
   * and the script images, and its `finally` runs the cleanup container.
   */
  method BuildProject(engine: Engine, host: Host, info: ProjectInfo, args: BuildArgs, a: Scope, b: Scope, tmpdir: string)
    returns (r: Result<()>, ghost entered: bool, ghost tryAt: nat, ghost cleanupAt: nat, ghost order: seq<string>)
    requires a.volumes == [] && b.volumes == [] && a.tag == "python-base" && b.tag == "bindep"
    modifies engine
    ensures entered <==> PrepareOk(host, a, b, engine.replies, |old(engine.log)|)
    ensures !entered ==>
              && r.Err? && Reports(engine.log, engine.replies, r)
              && engine.log == old(engine.log) + PrepareLog(host, a, b, engine.replies, |old(engine.log)|)
              && NotIssued(engine.log, |old(engine.log)|, CleanupCreate(host, tmpdir))
    ensures entered ==> TryRan(host, info, args, a, b, tmpdir, old(engine.log), engine.log, engine.replies, r,
                               tryAt, cleanupAt, order)
    ensures r.Ok? ==> entered && AllMade(engine.log, engine.replies, |old(engine.log)|, host.files, info, args.prefix)
  {
    entered, tryAt, cleanupAt, order := false, 0, 0, [];
    var prepared := Prepare(engine, host, a, b, tmpdir);
    if prepared.Err? {
      r := Err(prepared.error);
      ReportsPassed(engine.log, engine.replies, prepared, r);
      return;
    }
    entered := true;
    tryAt := |engine.log|;
    r, cleanupAt, order := EnterTry(engine, host, info, args, a, b, tmpdir, old(engine.log), prepared.value);
  }

  /** The `try` of `build` and its `finally`, entered with `log0` the log before `build` and
    * `lists` the two package lists. */
  method EnterTry(engine: Engine, host: Host, info: ProjectInfo, args: BuildArgs, a: Scope, b: Scope, tmpdir: string,
                  ghost log0: seq<Cmd>, lists: (string, string))
    returns (r: Result<()>, ghost cleanupAt: nat, ghost order: seq<string>)
    requires PrepareOk(host, a, b, engine.replies, |log0|)
    requires engine.log == log0 + PrepareLog(host, a, b, engine.replies, |log0|)
    requires lists == Listings(engine.replies, ScopesEnd(host, a, b,
                                                         engine.replies, |log0|))
    requires NotIssued(engine.log, |log0|, CleanupCreate(host, tmpdir))
    requires Made(engine.log, engine.replies, |log0|, "python-base") && Made(engine.log, engine.replies, |log0|, "bindep")
    modifies engine
    ensures TryRan(host, info, args, a, b, tmpdir, log0, engine.log, engine.replies, r, |old(engine.log)|, cleanupAt, order)
    ensures r.Ok? ==> AllMade(engine.log, engine.replies, |log0|, host.files, info, args.prefix)
  {
    ghost var log1 := engine.log;
    var scripts := Enumerate(info.scripts);
    order := scripts;
    r, cleanupAt := TryFinally(engine, host, info, scripts, args, lists.0, lists.1, tmpdir);
    TryRanFrom(host, info, args, a, b, tmpdir, log0, engine.log, engine.replies, r, |log1|, cleanupAt, order);
    if r.Ok? {
      BuildMade(log1, engine.log, engine.log, engine.replies, |log0|, info, host.files, args.prefix, scripts);
    }
  }

  /** The log `build` leaves once it entered the `try`, read back part by part. */
  lemma TryRanFrom(host: Host, info: ProjectInfo, args: BuildArgs, a: Scope, b: Scope, tmpdir: string, log0: seq<Cmd>,
                   log: seq<Cmd>, replies: nat -> Reply, r: Result<()>, tryAt: nat, cleanupAt: nat,
                   order: seq<string>)
    requires PrepareOk(host, a, b, replies, |log0|)
    requires |order| == |info.scripts| && (forall x :: x in order <==> x in info.scripts)
    requires var pre := log0 + PrepareLog(host, a, b, replies, |log0|);
             var cache := CacheVolume(tmpdir);
             var lists := Listings(replies, ScopesEnd(host, a, b, replies, |log0|));
             var body := BuildTryLog(host, info, order, args, lists.0, lists.1, cache, replies, tryAt);
             var cleanup := CleanupScope(host.uid, cache);
             && tryAt == |pre| && cleanupAt == tryAt + |body|
             && log == pre + body + ScopeLog(host, cleanup, replies, cleanupAt)
             && NotIssued(pre, |log0|, CleanupCreate(host, tmpdir))
             && (r.Ok? <==> BuildTryOk(host, info, order, args, lists.0, lists.1, cache, replies, tryAt)
                            && ScopeOk(host, cleanup, replies, cleanupAt))
             && (ScopeOk(host, cleanup, replies, cleanupAt) ==> Reports(pre + body, replies, r))
             && (!ScopeOk(host, cleanup, replies, cleanupAt) ==> Reports(log, replies, r))
    ensures TryRan(host, info, args, a, b, tmpdir, log0, log, replies, r, tryAt, cleanupAt, order)
  {
    var images := ScopesLog(host, a, b, replies, |log0|);
    var lists := ListsLog(host.cwd, replies, ScopesEnd(host, a, b, replies, |log0|));
    assert |lists| == 2;
    var pre := log0 + PrepareLog(host, a, b, replies, |log0|);
    assert pre == log0 + (images + lists);
    var cache := CacheVolume(tmpdir);
    var listed := Listings(replies, ScopesEnd(host, a, b, replies, |log0|));
    var body := BuildTryLog(host, info, order, args, listed.0, listed.1, cache, replies, tryAt);
    Slices(log, pre, body, ScopeLog(host, CleanupScope(host.uid, cache), replies, cleanupAt), tryAt, cleanupAt);
  }

  /** Once the `try` is entered, the cleanup container is created right after its body, and not
    * before the `try`; nothing is created after it; and a cleanup that runs through ends the
    * build by removing its container. */
  lemma BuildCleansUp(host: Host, info: ProjectInfo, args: BuildArgs, a: Scope, b: Scope, tmpdir: string,
                      log0: seq<Cmd>, log: seq<Cmd>, replies: nat -> Reply, r: Result<()>, tryAt: nat,
                      cleanupAt: nat, order: seq<string>)
    requires TryRan(host, info, args, a, b, tmpdir, log0, log, replies, r, tryAt, cleanupAt, order)
    ensures cleanupAt < |log| && log[cleanupAt] == CleanupCreate(host, tmpdir)
    ensures forall k :: |log0| <= k < tryAt ==> log[k] != CleanupCreate(host, tmpdir)
    ensures forall k :: cleanupAt < k < |log| ==> !log[k].Create?
    ensures ScopeOk(host, CleanupScope(host.uid, CacheVolume(tmpdir)), replies, cleanupAt)
            ==> log[|log| - 1] == Rm(RunIdAt(replies, cleanupAt))
  {
    var cleanup := CleanupScope(host.uid, CacheVolume(tmpdir));
    var tail := ScopeLog(host, cleanup, replies, cleanupAt);
    ScopeCreatesOnce(host, cleanup, replies, cleanupAt);
    assert log[cleanupAt..] == tail;
    assert log[cleanupAt] == tail[0];
    forall k | cleanupAt < k < |log|
      ensures !log[k].Create?
    {
      assert log[k] == tail[k - cleanupAt];
    }
    forall k | |log0| <= k < tryAt
      ensures log[k] != CleanupCreate(host, tmpdir)
    {
      assert log[k] == log[..tryAt][k];
    }
    if ScopeOk(host, cleanup, replies, cleanupAt) {
      ScopeOkRemoves(host, cleanup, replies, cleanupAt);
      assert log[|log| - 1] == tail[|tail| - 1];
    }
  }

  /** The three consecutive parts of a log, read back by slicing. */
  lemma Slices(log: seq<Cmd>, pre: seq<Cmd>, body: seq<Cmd>, rest: seq<Cmd>, at: nat, end: nat)
    requires log == pre + body + rest && at == |pre| && end == |pre| + |body|
    ensures log[..at] == pre && log[..end] == pre + body && log[at..end] == body && log[end..] == rest
  {
  }

  /** The images made before the `try` and inside it are still there after the `finally`. */
  lemma BuildMade(log1: seq<Cmd>, log2: seq<Cmd>, log3: seq<Cmd>, replies: nat -> Reply, n0: nat,
                  info: ProjectInfo, files: set<string>, prefix: string, order: seq<string>)
    requires n0 <= |log1| && log1 <= log2 <= log3
    requires Made(log1, replies, n0, "python-base") && Made(log1, replies, n0, "bindep")
    requires Made(log2, replies, |log1|, info.BaseContainer())
    requires prefix != "" ==> Made(log2, replies, |log1|, prefix + "/" + info.BaseContainer())
    requires forall s :: s in order && s != "" ==> ScriptBuilt(log2, replies, files, s, prefix, |log1|)
    requires forall s :: s in info.scripts ==> s in order
    ensures AllMade(log3, replies, n0, files, info, prefix)
  {
    MadeMono(log1, log3, replies, n0, n0, "python-base");
    MadeMono(log1, log3, replies, n0, n0, "bindep");
    MadeMono(log2, log3, replies, |log1|, n0, info.BaseContainer());
    if prefix != "" {
      MadeMono(log2, log3, replies, |log1|, n0, prefix + "/" + info.BaseContainer());
    }
    forall s | s in info.scripts && s != ""
      ensures ScriptBuilt(log3, replies, files, s, prefix, n0)
    {
      ScriptBuiltMono(log2, log3, replies, files, s, prefix, |log1|, n0);
    }
  }
}
