# pbrx container images and siblings, in Dafny

A model of two commands of pbrx, a helper for OpenStack-style Python projects that use pbr.

**`pbrx build-images`** (`pbrx/container_images.py`) builds a project's container images by
driving the `docker` command line. It first makes two images:

- `python-base`, the distribution image with its packages updated and, optionally, the Alpine
  mirror swapped;
- `bindep`, which carries the bindep tool.

It then asks bindep for the run-time and compile-time package lists. Inside a `try`:

- it builds the project's wheel into a cache directory mounted into the containers;
- it commits the project's base image `<name>-base`, with dumb-init as entrypoint;
- it makes one image per console script: from `Dockerfile.<script>` when there is one, otherwise
  from a container started on the base image.

A `finally` clause runs one last container that gives the cache back to the host user. Every
container is used through `docker_container`, a context manager that creates and starts the
container, runs the body, commits the container when a tag is given, and removes it.

**`pbrx siblings`** (`pbrx/siblings.py`) installs source checkouts of a project's dependencies
(its siblings) in place of their released versions:

- it reads each checkout's package name from its `setup.cfg`, or asks `python setup.py --name`;
- it uninstalls every installed package that is one of them;
- it reinstalls them with `pip install -e`, under a copy of the constraints file without them;
- it strips the version pins on them from the main project's `requires.txt`.

The model:

- **Docker.** The engine is an `Engine` object: the log of the docker commands issued, plus an
  oracle `replies` that answers the n-th command. Which images exist follows from the log.
- **pip and `setup.py`.** These run through a `Runner` object with a log and an oracle of the
  same kind.
- **Failures.** A non-zero exit code is the exception the program lets escape
  (`sh.ErrorReturnCode`, `subprocess.CalledProcessError`). In the model it is an `Err`.
- **Files.** The file system is a `FileSystem` object holding a map from path to contents.
- **Other surroundings.** The interpreter path, `os.path.abspath`, the `metadata.name` lookup of
  `configparser`, the working set of `pkg_resources` and the name `tempfile` chooses are values of
  an `Env` (siblings). On the container side, the host's directories, uid and existing files are
  values of a `Host`.

Modules:

- `Text`: the `str` operations the two files rely on.
- `Commands`: commands, replies and running a plan of commands until the first failure.
- `ContainerImages`: the container side.
- `Siblings`: the siblings side.

## Model

| member | source | states |
|---|---|---|
| Text.StripSpec | pbrx/container_images.py:38-43 | `str.strip()` returns the infix left after dropping the leading and trailing whitespace, and only whitespace. |
| Text.StripBytesSpec | pbrx/siblings.py:107-113 | `bytes.strip()` of the `setup.py --name` output drops leading and trailing ASCII whitespace, and only that. |
| Text.StripIdempotent | pbrx/container_images.py:38-43 | Stripping a stripped text changes nothing. |
| Text.JoinSplit | pbrx/siblings.py:129-135 | Joining the pieces of `split(sep)` with `sep` gives the text back. |
| Text.SplitCharCount | pbrx/container_images.py:39-41 | Splitting on one character gives one piece more than the character's occurrences, so `len(parts) == 2` means exactly one `=`. |
| Text.ReplaceChar | pbrx/container_images.py:198-199 | `replace('-', '_')` keeps the length and changes exactly the `-` characters. |
| Text.ReplaceCharJoin | pbrx/container_images.py:199 | Replacing a character that is not in the separator commutes with `join`. |
| Text.ConcatReadLines | pbrx/siblings.py:188-189 | `readlines()` loses nothing of the text as read: the lines, written back one after another, give that text. |
| Text.ReadLinesSplit | pbrx/siblings.py:188-189 | `readlines()` cuts the text at its newlines: every line but the last ends with a newline, and no line holds a newline before its end. |
| Text.Universal | pbrx/siblings.py:128 | Opening a file in text mode turns `\r\n` and a lone `\r` into `\n`: what is read holds no carriage return and is no longer than the file. |
| Text.UniversalPlain | pbrx/siblings.py:188 | A file without a carriage return is read exactly as it is stored. |
| Text.UniversalIdempotent | pbrx/siblings.py:188 | Translating newlines in text that was already read changes nothing. |
| Text.PathJoin | pbrx/siblings.py:44-47 | `os.path.join` keeps an absolute second component as it is, and otherwise puts the first in front, adding a `/` exactly when the first is non-empty and does not already end with one. |
| Commands.Outcome | pbrx/siblings.py:55-62 | A command's output is returned exactly when it exits 0; otherwise the error names the command, its exit code and its output. |
| Commands.Runner.Run | pbrx/siblings.py:55-62 | Running a command appends it to the log and reports the oracle's reply for that position. |
| Commands.IssuedSpec | pbrx/siblings.py:139-158 | Commands run one after another issue the whole plan when all succeed, and otherwise stop right after the first failure. |
| Commands.AttemptConcat | pbrx/container_images.py:109-113 | Running one plan and then another issues what running their concatenation issues; the second starts only if the first succeeded. |
| Commands.FlagPairs | pbrx/siblings.py:217-218 | The `-e <checkout>` arguments: the flag at each even position, the values in order at the odd positions. |
| ContainerImages.ProjectInfo.BaseContainer | pbrx/container_images.py:46-48 | The base image's name is the project name followed by `-base`. |
| ContainerImages.LineScriptSpec | pbrx/container_images.py:39-43 | A line contributes a script iff it holds exactly one `=`; the script is the stripped text to its left. |
| ContainerImages.ScriptNamesSpec | pbrx/container_images.py:38-44 | A name is a script iff some line of the stripped `console_scripts` value defines it. |
| ContainerImages.ExtractScripts | pbrx/container_images.py:35-44 | The set built line by line is exactly the set of names that some line defines. |
| ContainerImages.LoadProjectInfo | pbrx/container_images.py:29-33 | A missing `console_scripts` raises first, then a missing `name`; the info exists iff both are present, and then holds that name and those scripts. |
| ContainerImages.ExtraName | pbrx/container_images.py:195-199 | An extra's name is the image or script name with every `-` replaced by `_`, and nothing else changed. |
| ContainerImages.BaseExtra | pbrx/container_images.py:216-219 | The base image's extra is the project's extra followed by `_base`. |
| ContainerImages.JoinedExtras | pbrx/container_images.py:195-199 | Replacing `-` in the comma-joined script names gives the comma-joined extras of the scripts. |
| ContainerImages.RenderCreate | pbrx/container_images.py:67-83 | `docker create` mounts the working directory at `/usr/src`, makes it the working directory, then passes each volume with its own `-v` in order, the image and `sh`. |
| ContainerImages.RenderCommit | pbrx/container_images.py:92-99 | `docker commit` passes `-c <comment>` exactly when the comment is non-empty, and ends with the container and the tag. |
| ContainerImages.Engine.Docker | pbrx/container_images.py:83-84 | A docker command is appended to the log and answered by the oracle; a non-zero exit code raises. |
| ContainerImages.MountList | pbrx/container_images.py:53-63 | A container's mounts are the caller's volumes, then `/etc/pip.conf` and then the user's `pip.conf`, each only when the file exists. |
| ContainerImages.ContainerContext.constructor | pbrx/container_images.py:53-63 | A new context holds the engine, the base image and the completed mount list. |
| ContainerImages.ContainerContext.Create | pbrx/container_images.py:67-84 | `create` issues `docker create`, and `docker start` only if the create succeeded; it succeeds iff both do, returning the id `start` printed. |
| ContainerImages.ContainerContext.Run | pbrx/container_images.py:86-90 | `run` issues one `docker exec` of the command in the container and raises exactly when it fails. |
| ContainerImages.ContainerContext.Commit | pbrx/container_images.py:92-103 | `commit` issues the commit, then the prefixed tag when there is a prefix, stopping at the first failure. |
| ContainerImages.NewContainerContext | pbrx/container_images.py:53-65 | Constructing a context issues `create` with the completed mounts; on success the new context's run id is the id `docker start` printed. |
| ContainerImages.ExitPlanShape | pbrx/container_images.py:111-113 | The normal exit of a scope issues one `rm -f`, last; a commit comes first iff there is a tag, and a prefixed tag follows iff there is also a prefix. |
| ContainerImages.BodyFailureLeavesContainer | pbrx/container_images.py:106-113 | When a command of the body fails, the scope ends on it: neither a commit nor an `rm -f` is issued, so the container is left behind. |
| ContainerImages.BodyFailureStops | pbrx/container_images.py:108-110 | A failing body cuts the scope short inside the body: only `docker exec`s of the body, in order, are issued. |
| ContainerImages.ScopePlanShape | pbrx/container_images.py:106-113 | After its container starts, a scope issues its body, then the commit iff it has a tag, the prefixed tag iff it also has a prefix, and exactly one `rm -f`, last. |
| ContainerImages.ScopeOkLog | pbrx/container_images.py:106-113 | A scope that runs through issues `docker create`, `docker start`, then its whole body and exit. |
| ContainerImages.ScopeOkRemoves | pbrx/container_images.py:111-113 | A scope that runs through removes its container: its last command is its only `rm -f`, of its run id. |
| ContainerImages.ScopeMakes | pbrx/container_images.py:92-113 | A scope with a tag that runs through commits its container under the tag, so the image exists, and the prefixed image too when it has a prefix. |
| ContainerImages.ScopeCreatesOnce | pbrx/container_images.py:106-108 | A scope creates exactly one container, as its first command, with the scope's image and mounts. |
| ContainerImages.ScopeAvoids | pbrx/container_images.py:106-108 | A scope never issues a `docker create` other than its own. |
| ContainerImages.ScopeLogCompose | pbrx/container_images.py:106-113 | A scope's commands are those of `create`, then, only if the container started, those of the body and the exit. |
| ContainerImages.TaggedImage | pbrx/container_images.py:92-113 | A scope issues exactly its commands and succeeds iff they all do; when it has a tag and runs through, its commit succeeded and its image (and its prefixed image) exists. |
| ContainerImages.RunBody | pbrx/container_images.py:109 | The body runs its commands in order until the first one that raises, and succeeds iff all of them do. |
| ContainerImages.ExitContainer | pbrx/container_images.py:111-113 | After the `yield`: the commit when there is a tag, then `rm -f`, stopping at the first failure. |
| ContainerImages.ScopeBody | pbrx/container_images.py:109-113 | What follows the `yield`: the body, then the commit and `rm -f` only if the body did not raise. |
| ContainerImages.DockerContainer | pbrx/container_images.py:106-113 | A `with docker_container(...)` block issues exactly the scope's commands, and succeeds iff every one of them does. |
| ContainerImages.Normalise | pbrx/container_images.py:164-165 | The package lists have every carriage return and newline turned into a space, and nothing else changed. |
| ContainerImages.ScopesAvoid | pbrx/container_images.py:120-132 | The two scopes before the `try` create no container other than their own two. |
| ContainerImages.ScopesMake | pbrx/container_images.py:120-132 | When both scopes before the `try` run through, the images they tag exist. |
| ContainerImages.ListPackages | pbrx/container_images.py:137-148 | A bindep listing returns the output on exit 0 and the stripped output on exit 1; any other exit code raises. |
| ContainerImages.PackageLists | pbrx/container_images.py:134-165 | Issues the run-time `bindep -b` listing and, only if it exited 0 or 1, the compile-time one; it succeeds iff both exited 0 or 1, and then returns the two lists read off those replies, normalised. |
| ContainerImages.BaseImages | pbrx/container_images.py:120-132 | Issues the `python-base` scope and, only if it ran through, the `bindep` scope; it succeeds iff both ran through, and then both images exist. The cleanup container is not created. |
| ContainerImages.Prepare | pbrx/container_images.py:116-165 | Everything before the `try`: the two image scopes, then the two listings, each step only if the previous ones succeeded. It succeeds iff all do, and then `python-base` and `bindep` exist and the package lists are those the listings returned. The cleanup container is not created. |
| ContainerImages.Enumerate | pbrx/container_images.py:240 | Iterating over the set of scripts visits each script exactly once. |
| ContainerImages.ScriptImage | pbrx/container_images.py:240-263 | One script: `docker build -f Dockerfile.<script>` when that file exists, otherwise the scope on the base image that installs the script's extra and commits with the `CMD` comment. It succeeds iff that step does, and then, for a non-empty script name, the script's image exists: built from the Dockerfile when there is one (no prefixed tag is made then), otherwise committed with the `CMD` comment and, when there is a prefix, tagged under it as well. |
| ContainerImages.ScriptImages | pbrx/container_images.py:240-263 | The scripts, in iteration order, until the first failure; it succeeds iff every script's step does, and then every script with a non-empty name has its image. |
| ContainerImages.TryBody | pbrx/container_images.py:171-263 | The body of the `try`: the wheel scope, the base image scope, then the script images, each only if the previous succeeded. On success the base image (and the prefixed one) exists, and so does the image of every script with a non-empty name, as `ScriptImage` states it. |
| ContainerImages.TryFinally | pbrx/container_images.py:171-272 | The body of the `try`, then the cleanup scope right after it whatever the body did. It succeeds iff both run through; the failure reported is the body's when the cleanup ran through, and the cleanup's otherwise. |
| ContainerImages.Finally | pbrx/container_images.py:265-272 | The cleanup scope is issued whatever the body did. When it runs through the outcome is the body's; when it fails, its own error replaces the body's outcome. |
| ContainerImages.BuildImages | pbrx/container_images.py:116-272 | Incomplete metadata raises before any docker command. The `try` is entered iff everything before it succeeds; otherwise the log is exactly what came before it, without the cleanup container. Once entered, the log is what came before, the body of the `try` for some order of the scripts, then the cleanup scope, and the outcome follows from both. On success `python-base`, `bindep`, the base image (and the prefixed one) exist, and so does the image of every script with a non-empty name, as `ScriptImage` states it. |
| ContainerImages.BuildProject | pbrx/container_images.py:116-272 | The same, once the project info is read. |
| ContainerImages.EnterTry | pbrx/container_images.py:167-272 | After everything before the `try` succeeded: the log grows by the body of the `try` for an iteration order of the scripts, then the cleanup scope; on success `python-base`, `bindep`, the base image (and the prefixed one) and the image of every script with a non-empty name exist. |
| ContainerImages.BuildCleansUp | pbrx/container_images.py:265-272 | Once the `try` is entered, the cleanup container is created right after the body, not before the `try`, and no container is created after it; when the cleanup runs through, the build ends by removing that container. |
| ContainerImages.BuildMade | pbrx/container_images.py:116-263 | The images made before the `try` and inside it still exist when the build ends. |
| Siblings.GetPackageName | pbrx/siblings.py:30-39 | `metadata.name` of the file, or `None` when the file is missing or has no name. |
| Siblings.Installed | pbrx/siblings.py:50-52 | The project names of the working set, in order. |
| Siblings.FileSystem.Write | pbrx/siblings.py:187-205 | Writing a file replaces its contents and leaves every other file alone. |
| Siblings.FileSystem.Unlink | pbrx/siblings.py:234 | `os.unlink` removes exactly that path. |
| Siblings.ApplySpec | pbrx/siblings.py:91-114 | The dictionary holds a key iff some store wrote it, and the value of the last store of that key. |
| Siblings.CfgRecorded | pbrx/siblings.py:96-101 | Every checkout with a `setup.cfg` is recorded under the name read there, even when that name is `None`. |
| Siblings.SetupPyRecorded | pbrx/siblings.py:102-114 | A `bytes` key comes only from a checkout without a usable `setup.cfg` name: `setup.py --name` ran for it, printed something, and the key is that output stripped. |
| Siblings.ScanRoot | pbrx/siblings.py:93-114 | One checkout runs `setup.py --name` exactly when it has no usable `setup.cfg` name but has a `setup.py`, fails exactly when that run fails, and stores its entries in order. |
| Siblings.ScanNext | pbrx/siblings.py:93-114 | One turn of the checkout loop keeps the log a prefix of the loop's plan, or ends the loop at the failing run. |
| Siblings.ScanRoots | pbrx/siblings.py:91-118 | The checkout loop issues the `setup.py --name` runs in order until the first failure; it succeeds iff all of them do, and then the dictionary holds the stores of all checkouts. |
| Siblings.Siblings.constructor | pbrx/siblings.py:67-71 | The object records the name, the checkouts and the constraints, with an empty dictionary. |
| Siblings.Siblings.GetSiblings | pbrx/siblings.py:79-118 | `get_siblings` rebuilds the dictionary from empty, with the result of the checkout loop. |
| Siblings.ConstraintsRoundTrip | pbrx/siblings.py:127-137 | Reading the new constraints file as the old one was read gives exactly the kept lines in order, then the empty piece after the last newline. |
| Siblings.ConstraintsDropSiblings | pbrx/siblings.py:129-135 | A line is in the new constraints file iff it is the final empty piece, or a line of the old file whose text before `===` is not a key of the dictionary. |
| Siblings.KeptConstraints | pbrx/siblings.py:129-135 | The loop writes the lines about packages that are not keys of the dictionary, each followed by a newline. |
| Siblings.Siblings.WriteNewConstraintsFile | pbrx/siblings.py:120-137 | The temporary file is created first. A missing constraints file then raises and leaves the empty temporary file behind. Otherwise the temporary file holds the lines of the constraints file, read with newline translation, that are not about a sibling, each followed by a newline. |
| Siblings.SiblingNamesSpec | pbrx/siblings.py:139-158 | A package is a sibling iff it is installed, is not the project itself, and is a key of the dictionary under a `str` name. |
| Siblings.Uninstalls | pbrx/siblings.py:55-57 | One `python -m pip uninstall -y <name>` per sibling, in order. |
| Siblings.RunKept | pbrx/siblings.py:140-158 | A generator loop issues one command per admitted name, in order, and stops at the first failure; on success it yields exactly the admitted names. |
| Siblings.UninstallSiblings | pbrx/siblings.py:139-158 | The siblings are uninstalled in working-set order until an uninstall fails. The loop succeeds iff every uninstall does, and then yields exactly the siblings. |
| Siblings.Siblings.FindSiblingPackages | pbrx/siblings.py:139-158 | `find_sibling_packages` is that loop over the working set, for this project and its dictionary. |
| Siblings.Locations | pbrx/siblings.py:215-218 | The checkout of each sibling, in order. |
| Siblings.PackageArgs | pbrx/siblings.py:209-219 | The loop of `process` collects `-e <checkout>` for each sibling in order, and the list of siblings. |
| Siblings.InstallArgsSpec | pbrx/siblings.py:224-229 | The `pip install` arguments are `install`, then `-c <temporary file>` exactly when there are constraints, then `-e` and each sibling's checkout in order. |
| Siblings.RewriteSpec | pbrx/siblings.py:189-204 | A `requires.txt` line that starts with a sibling's name becomes the first such name alone, with a newline; any other line is kept. |
| Siblings.RewriteLine | pbrx/siblings.py:190-204 | The inner loop of `clean_depends` rewrites one line as above. |
| Siblings.RewriteText | pbrx/siblings.py:188-204 | The outer loop rewrites every line of `requires.txt`, in order. |
| Siblings.RewriteNoMatch | pbrx/siblings.py:189-204 | When no line of the text as read names a sibling, the rewritten text is that text, unchanged. |
| Siblings.FindProject | pbrx/siblings.py:170-174 | The search returns the first distribution of the working set with the project's name, or none. |
| Siblings.CleanedFilesSpec | pbrx/siblings.py:160-205 | `clean_depends` creates and removes no file. It changes at most the main project's `requires.txt`, and only when the project is installed and that file exists. That file gets every line of its text, read with newline translation, rewritten. |
| Siblings.CleanedNoMatch | pbrx/siblings.py:160-205 | When no line of `requires.txt`, as read in text mode, starts with a sibling's name, `clean_depends` changes only the newlines of that file (to `\n`), and nothing at all when the file holds no carriage return. |
| Siblings.Siblings.CleanDepends | pbrx/siblings.py:160-205 | `clean_depends` leaves the files as stated above. |
| Siblings.InstallErrors | pbrx/siblings.py:224-236 | The install step fails only with one of three errors: a command's failure, `UnboundLocalError` (only without constraints), or a missing file (only when the constraints file is missing). |
| Siblings.Siblings.Install | pbrx/siblings.py:224-236 | The install step issues, leaves and returns what its specification function gives. Without constraints it runs pip and then raises `UnboundLocalError`. With constraints it removes the temporary file after pip, and cleans `requires.txt` only if pip succeeded. |
| Siblings.ProcessStops | pbrx/siblings.py:207-211 | When an uninstall fails, `process` has issued a prefix of the uninstalls in which every command but the last succeeded and the last failed; it never reaches `pip install`, changes no file and reports that last command. |
| Siblings.ProcessGoesOn | pbrx/siblings.py:207-236 | When every uninstall succeeds: with no sibling found `process` issues nothing and succeeds; otherwise it issues all the uninstalls, then at most one more command (the `pip install`), and its files and outcome are those of the install step. |
| Siblings.ProcessErrors | pbrx/siblings.py:207-236 | `process` fails only with a command's failure, with `UnboundLocalError` only without constraints, or with a missing file only when the constraints file is missing. |
| Siblings.ProcessRemovesTemporary | pbrx/siblings.py:231-234 | Once pip runs with constraints, the temporary constraints file is gone afterwards, whether pip succeeded or not. |
| Siblings.ProcessInstalls | pbrx/siblings.py:224-232 | When the uninstalls succeed and there are siblings, `process` issues the uninstalls, then exactly one `pip install` with the constraints flags and `-e` plus each sibling's checkout. |
| Siblings.Siblings.InstallFound | pbrx/siblings.py:211-236 | After the uninstalls, the rest of `process` completes what the specification function of `process` gives. |
| Siblings.Siblings.Process | pbrx/siblings.py:207-236 | `process` issues exactly the commands its specification function gives, and leaves the files and the outcome it gives. |
| Siblings.SiblingsMain | pbrx/siblings.py:239-260 | `main` returns 0 and touches nothing without `setup.cfg`, without checkouts or without a project name. It returns 1 exactly when the given constraints file is missing. Otherwise it returns 0 or an error of the kinds `process` raises, and the command log only grows. |

## Left out

- Logging (`log.debug`, `log.info`) and the `print(e.stdout)` before re-raising in the base image step: output only, no effect on the model's state.
- The working directory of `python setup.py --name` (`cwd=root`): the command log records the argument vector only.
- `configparser` parsing: the values `build` reads from `setup.cfg`, and the `metadata.name` lookup of `get_package_name`, arrive as parameters. `get_package_name` catches every exception, which the model reflects as `None`.
- `os.path.abspath`, `os.path.expanduser`, `os.getuid` and `os.curdir` are parameters (`Env.absolute`, `Host.home`, `Host.uid`, `Host.cwd`).
- `tempfile`: the name of the temporary constraints file is a parameter. The temporary directory of `build` is a parameter, and its deletion at the end of the `with` is not modelled.
- `clean_depends` writes a temporary file and renames it over `requires.txt`. The model writes `requires.txt` directly, so the temporary file, which the rename removes again, does not appear.
- UTF-8 encoding and decoding: text and bytes are both sequences of characters. Only the difference that matters here is kept: a `bytes` key never equals a `str` name.
- The shell commands run inside containers are opaque strings. Their effect inside the container is the oracle's reply.
- `pbrx/cmd/main.py` (argument parsing and subcommand dispatch) is not part of this model. The command-line options arrive as `BuildArgs` and as the parameters of `SiblingsMain`.
- Pushing images to a registry: `pbrx/container_images.py` in this version has no push step.
- Exceptions other than those the model names (for example an `OSError` from `open` or `os.rename`): the file operations are modelled as total apart from reading a missing constraints file.
- Siblings.Siblings.Process: does not state the contents of the temporary constraints file that pip read, because that file is removed before `process` returns; Siblings.Siblings.WriteNewConstraintsFile and Siblings.KeptConstraints state them.
- Siblings.SiblingsMain: once past the guards, states only that the log grows, the result is 0 or an error, and which errors can occur. The full effect is that of `Siblings.Siblings.GetSiblings` followed by `Siblings.Siblings.Process`, which state it.
- ContainerImages.BuildImages: the order in which the scripts are built is the ghost out-parameter `order`, any permutation of the scripts, because Python's set iteration order is not fixed.
- ContainerImages.ScriptImages: the order of Python's set iteration is not fixed, so any order of the scripts is allowed (`ContainerImages.Enumerate`).

## Behaviour as written

Points where the code behaves in ways a reader might not expect, all modelled as written:

- `docker_container` has no `try`/`finally` around its `yield`. A body command that raises skips both the commit and `docker rm -f`, so the container is left behind (`ContainerImages.BodyFailureLeavesContainer`).
- The `python-base` and `bindep` images and the two bindep listings are made before the `try`. A failure there, including a bindep exit code other than 0 or 1, never reaches the cleanup container (`ContainerImages.BuildImages`).
- A script's image starts from the unprefixed base image `<name>-base`, even when a prefix is given.
- A script with an empty name gets no commit, because an empty tag is falsy.
- A script built from its `Dockerfile.<script>` is tagged only as `<script>`; the prefix is applied only to images committed from a container (`ContainerImages.ScriptImage`).
- The two `sed` expressions lack their closing delimiter (`s,old,new`). They are passed to the container as written, and their outcome is the oracle's.
- `None` and the empty string are not told apart for the tag, prefix, comment, mirror and constraints, because the code looks only at their truthiness.
- Without constraints, `process` still runs `pip install`, but then its `finally` clause names `constraints_file`, which was never bound. The result is `UnboundLocalError` (`Siblings.ProcessErrors`), and `clean_depends` is not reached.
- When the constraints file is missing, `write_new_constraints_file` has already created the temporary file. The model leaves that file behind, as the code does.
- Under Python 3, `subprocess.check_output` returns `bytes`. A name that `setup.py --name` printed is therefore a `bytes` key and never matches an installed package's `str` name (`Siblings.SetupPyRecorded`, `Siblings.SiblingNamesSpec`).
- Paths are map keys as the program spells them; no normalisation is modelled.
