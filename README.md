# Bundled-Python provisioning of blender_vscode, modelled in Dafny

The Blender extension for VS Code can install the C headers of Blender's
bundled Python, and it can pip-install a package into that Python
(`src/python_installs.ts`). Both entry points first run Blender headless with an
inline script that prints a sentinel. They then cut the bundled Python's path
out of Blender's console output. The header installer next asks that Python for
its version banner and cuts the version out of it. Last, it starts a download of
the matching source release and unpacks its `Include` directory into
`<pythonPath>/include`. The module installer builds a pip command line and
treats empty output as failure.

This project models that text handling as pure functions. It also models how the
stages chain.

- `js_string.dfy` (module `JsString`) models the JavaScript primitives the code
  relies on. `search` returns the first match or -1. `includes` tests
  for an occurrence. `slice` resolves negative bounds from the end and clamps
  both bounds to `[0, length]`.
- `python_installs.dfy` (module `PythonInstalls`) models the two probe parsers,
  the command, URL and path builders, the empty-output rule, and the two entry
  points. Each entry point returns the stages it started, the commands it ran
  and how its promise settles. `installPythonHeaderFiles` resolves with
  `undefined`. The `DownloadJob` in its `Ok` result is the pair of arguments
  passed to the download, which is started and not awaited. It is not the
  promise's value.

A subprocess is a parameter `exec: Shell` (`string -> string`). It gives the
standard output that a command line prints. The input box's answer is an
`Option<string>`, where `None` is a cancelled box.

Things the code does not do, and fixed choices it makes:

- The code resolves no binary name (no sorted candidate list). It passes the
  glob `python3*` to the shell.
- The code computes no "short version". The `Include` tree is extracted into
  `<pythonPath>/include` itself, not into `include/python<short>`.
- The version is the fixed slice `[7, 12)` of the banner. So `Python 3.10.2`
  yields `3.10.` (lemma `VersionTwoDigitMinor`).
- The pip entry point is hard-wired to `lib/python3.7/site-packages/pip`.
  `installPythonModule` never asks the bundled Python for its version.

## Model

| member | source | states |
|---|---|---|
| `JsString.Search` | src/python_installs.ts:38 | `search` with a literal pattern gives -1 exactly when the pattern does not occur. Otherwise it gives an index where the pattern occurs and before which it never occurs. |
| `JsString.Includes` | src/python_installs.ts:29 | `includes` is true exactly when the pattern occurs somewhere in the string. |
| `JsString.Slice` | src/python_installs.ts:38 | `slice` always yields a substring of the input that is no longer than the input. Each bound is resolved as `RelativeIndex` states: a negative bound counts back from the end, and every bound is clamped to `[0, length]`. The result is the text between the resolved bounds, or "" when the resolved end is not after the resolved start. For non-negative bounds `start <= end` it is `s[min(start, length) .. min(end, length))`. |
| `PythonInstalls.SearchFindsFirst` | src/python_installs.ts:38 | If the pattern occurs at `i` and at no earlier index, `search` returns `i`. |
| `PythonInstalls.GetPythonPath` | src/python_installs.ts:22-42 | The path probe rejects exactly when the output lacks `###TEST_BLENDER###`, and it rejects with the fixed bug-report message. When it resolves, the path is a substring of the output. |
| `PythonInstalls.ProbeBetweenMarkers` | src/python_installs.ts:36-38 | Let the label `found bundled python: ` first occur at `i` and `/python` first occur at `j >= i+22`. Then the probe yields `stdout[i+22 .. j+7)`, which ends with `/python`. |
| `PythonInstalls.ProbeWithoutLabel` | src/python_installs.ts:36-38 | Output with the sentinel but without the label still resolves. The -1 from `search` makes the slice start at index 21, never at a negative index. |
| `PythonInstalls.ProbeWithoutSuffix` | src/python_installs.ts:36-38 | Output with the sentinel but without `/python` resolves to the empty path, because the slice ends at index 6, before any start. The version command then becomes `/bin/python3* -V`, and the headers would go to `/include`. |
| `PythonInstalls.ProbeExample` | src/python_installs.ts:36-38 | The output `found bundled python: /opt/app/python`, newline, sentinel yields `/opt/app/python`. |
| `PythonInstalls.GetPythonVersion` | src/python_installs.ts:45-59 | The version probe rejects exactly when the output is empty, with the fixed message. Otherwise the version is `stdout[min(7, length) .. min(12, length))`, the clamped `slice(7, 12)`. It is a substring of at most 5 characters. |
| `PythonInstalls.VersionOfBanner` | src/python_installs.ts:55 | A banner `Python ` + v + anything, where v has 5 characters, yields v. |
| `PythonInstalls.VersionOfShortBanner` | src/python_installs.ts:55 | A banner `Python ` + v with v shorter than 5 characters yields v, line break included. So `Python 3.9\n` yields `3.9\n`. |
| `PythonInstalls.VersionExample` | src/python_installs.ts:55 | `Python 3.7.4\n` yields `3.7.4`. |
| `PythonInstalls.VersionTwoDigitMinor` | src/python_installs.ts:55 | A banner with a two-digit minor version, such as `Python 3.10.2`, yields the major and minor version with a trailing dot (`3.10.`). The patch level is lost. |
| `PythonInstalls.ArchiveNamedAsUrl` | src/python_installs.ts:62-63 | For a version without `/`, the download URL's last path segment and the archive path's file name are both `Python-<v>.tgz`. |
| `PythonInstalls.DownloadUrlInjective` | src/python_installs.ts:62 | Two versions with the same download URL are equal. |
| `PythonInstalls.IncludeSourceFromArchive` | src/python_installs.ts:63-75 | The archive path ends in `.tgz`. The packed directory is the archive path without `.tgz` plus `/Include`, and it lies inside the extraction directory `/tmp`. |
| `PythonInstalls.ProbeCommandShape` | src/python_installs.ts:23-24 | The probe command starts with the Blender path followed by ` --factory-startup -b --python-expr "`. It contains the sentinel. |
| `PythonInstalls.PipCommandEndsWithName` | src/python_installs.ts:90 | The pip command starts with `<pythonPath>/bin/python3* `. It ends with ` install ` + the module name, verbatim. |
| `PythonInstalls.CancelledInputInstallsUndefined` | src/python_installs.ts:89-90 | A cancelled input box makes the command end with ` install undefined`. |
| `PythonInstalls.PipOutcome` | src/python_installs.ts:95-105 | Module installation rejects exactly when pip prints nothing, with the fixed message. Otherwise it resolves. |
| `PythonInstalls.InstallPythonHeaderFiles` | src/python_installs.ts:12-20 | The stages started are a non-empty prefix of path probe, version probe, download. The first command is the probe command. The version probe starts exactly when the output contains the sentinel. After it, the run resolves exactly when the version output is non-empty. It resolves exactly when the download started. |
| `PythonInstalls.HeaderStageOrder` | src/python_installs.ts:15-19 | The version probe runs only when the path probe resolved, and it runs on that path. The download starts only when the version probe resolved, and it receives that version and path unchanged. A rejection carries the error of the stage that rejected. |
| `PythonInstalls.HeaderJobTargets` | src/python_installs.ts:19-75 | When a header run resolves, the download receives the probed path. The `Include` tree is extracted into that path + `/include`, with no version-named subdirectory. It is packed from `/tmp/Python-<version>/Include`. |
| `PythonInstalls.InstallPythonModule` | src/python_installs.ts:86-108 | The stages started are a non-empty prefix of path probe, input box, pip. The run never stops at the input box: pip runs even after a cancelled box. It stops after the probe exactly when the sentinel is missing. Otherwise the second command ends with ` install ` + the answer. It resolves exactly when pip ran and printed something. |
| `PythonInstalls.ModuleStageOrder` | src/python_installs.ts:86-93 | The input box and pip are reached only when the path probe resolved. pip runs on that path and the box's answer. A rejection carries the error of the stage that rejected. |

## Left out

- Running subprocesses (`child_process.exec`). The shell's expansion of the `python3*` glob is left out too. Each command's standard output is an input. The `err` and `stderr` arguments are ignored, as the code ignores them.
- `search` with regular-expression syntax. Every pattern the code passes is literal, so `Search` models a literal first-occurrence search.
- UTF-16 code units. JavaScript strings are modelled as `seq<char>`.
- The HTTP `HEAD` and `GET` requests, the write to the archive file, gunzip, and the `tar-fs` extract and pack streams with their `close`/`finish` events (src/python_installs.ts:64-81). These are foreign I/O. The download stage is represented only by the `DownloadJob` it is started with. The URL, archive path, packed directory and destination are built from that job's version and path (`HeaderJobTargets`, `ArchiveNamedAsUrl`, `IncludeSourceFromArchive`).
- Completion or failure of the download. `downloadAndInstallPythonHeaders` is not awaited and its errors are never propagated, so the model claims nothing about it.
- Notifications, the input box's UI and `console.log`. These do not affect control flow.
- src/extension.ts. It holds command registration, activation, the reload broadcast to running Blender instances, and save-triggered reloads. This is editor glue, not part of the provisioning.
