# HayCash ToolBox: access gate and launcher, in Dafny

The ToolBox is a Streamlit launcher page. It shows a grid of cards, and each
card opens one of the internal tools. `app.py`, `pages/01_Lector_CSF.py` and
`pages/02_Tool_Two.py` call a shared-password gate (`require_shared_password`
in `simple_auth.py`) near the top; `pages/05_Lector_edocat.py` and
`pages/06_reporte_consejo.py` do not (see "## Left out").

This project models two parts of the program.

The gate (`simple_auth.dfy`, module `SimpleAuth`):
- `SharedPassword` picks the configured secret. The secret store comes first and the `TOOLBOX_SHARED_PASSWORD` environment variable second. A blank value counts as missing.
- `ThrottleDelayMs` is the delay after a wrong password, in integer milliseconds.
- `AuthLog.LogAttempt` appends to the CSV audit log. It writes the header only when it creates the file, then exactly one row per attempt.
- `Gate` is one gate call as a pure function, and the method `RequireSharedPassword` runs the same logic on a `Session` object and an `AuthLog` object.
- `Run` applies the gate to a sequence of page renders, so that properties spanning several attempts can be stated.

Streamlit's `st.stop()` and `st.rerun()` become an `Outcome` value: `Proceed`, `Rerun` or `Halt(reason)`. The wrong-password halt carries the delay.

The launcher (`app.dfy`, module `Launcher`):
- `LoadRegistry` validates the app registry taken from `apps.yaml`.
- `LaunchTarget` and `HandleLaunch` resolve the `launch` query parameter to a page switch.
- `BuildCards` builds the card list. It models the cards by structure (link, name, icon slot), not as HTML.

`text.dfy` models Python's `str.strip()`. `wrappers.dfy` holds `Option` and `Result`.

Inputs the program reads from the outside are parameters:
- the secret-store value and the environment variable;
- the request timestamp, client IP and User-Agent (`RequestContext`);
- the parsed YAML document (`ConfigDoc`);
- the files next to the app (`FileTree`);
- the form's submit flag and its field values (`Form`).

## Model

| member | source | states |
|---|---|---|
| Text.SkipSpaceForward | simple_auth.py:89 | the first non-whitespace position at or after a start; everything skipped is whitespace |
| Text.SkipSpaceBackward | simple_auth.py:89 | the end of a range once its trailing whitespace is dropped; everything dropped is whitespace |
| Text.Strip | simple_auth.py:89 | `username.strip()` is no longer than the input and neither starts nor ends with whitespace |
| Text.StripIsMiddleSlice | simple_auth.py:89 | `username.strip()` is the slice of the input between a whitespace-only prefix and a whitespace-only suffix |
| Text.StripEmptyIffAllSpace | simple_auth.py:89-90 | a username strips to the empty string exactly when it is all whitespace, so it is rejected exactly then |
| SimpleAuth.SharedPassword | simple_auth.py:12-25 | a non-blank store string wins; otherwise a non-blank env var; otherwise none; the result is one of the inputs untrimmed and is never blank |
| SimpleAuth.ThrottleDelayMs | simple_auth.py:105 | the delay is between 500 and 2000 ms, a multiple of 250 ms, equals 500 + 250·n below six failures and 2000 from six on |
| SimpleAuth.ThrottleMonotone | simple_auth.py:105 | more failures never give a shorter delay |
| SimpleAuth.AttemptRow | simple_auth.py:35-41 | an attempt row has one cell per column, the username in the second and "True"/"False" in the third |
| SimpleAuth.AttemptRowFollowsFieldnames | simple_auth.py:35-45 | each cell of an attempt row is the row dictionary's value for the column at that position: `ts_utc`, `username`, `ok`, `client_ip`, `user_agent` |
| SimpleAuth.AppendAttempt | simple_auth.py:43-48 | an append leaves the file existing, keeps all earlier rows, adds the header only when the file did not exist, then exactly one attempt row |
| SimpleAuth.AppendKeepsLogWellFormed | simple_auth.py:43-48 | appending keeps the log well formed: it exists iff it has rows, the header comes first, every row has five cells |
| SimpleAuth.AuthLog.LogAttempt | simple_auth.py:28-48 | the file after `_log_attempt` is `AppendAttempt` of the file before |
| SimpleAuth.Initialize | simple_auth.py:68-73 | missing session keys are created as false, "", 0; existing ones are kept |
| SimpleAuth.Gate | simple_auth.py:51-110 | the page renders (`Proceed`) exactly when a secret is configured and the session was already signed in, and then nothing changes; with a secret configured the session keys exist afterwards; the single cases are stated by the `Gate…` lemmas below |
| SimpleAuth.GateUnconfigured | simple_auth.py:58-66 | without a secret the gate halts, creates no session key and writes no log row |
| SimpleAuth.GateAuthenticatedIsNoOp | simple_auth.py:75-76 | an authenticated session proceeds with session and log unchanged |
| SimpleAuth.GateNeverSignsOut | simple_auth.py:94-97 | a gate call never changes an authenticated session |
| SimpleAuth.GateSignsInOnlyOnMatch | simple_auth.py:94-99 | a session becomes authenticated only on a submission with a non-blank username and a password equal to the secret, and the page reruns |
| SimpleAuth.GateHaltsWithoutAttempt | simple_auth.py:88-92 | no submission, or a blank username, halts; failures, flag, stored username and log are unchanged |
| SimpleAuth.GateCorrectPassword | simple_auth.py:94-99 | the right password authenticates under the trimmed username, resets failures to 0, logs one "True" row and reruns |
| SimpleAuth.GateWrongPassword | simple_auth.py:100-108 | a wrong password adds one failure, stays signed out, logs one "False" row and halts with the delay for the new count |
| SimpleAuth.GateLogStep | simple_auth.py:88-108 | for any log file, a gate call appends one attempt row exactly when it reports a sign-in or a wrong password, and leaves the log alone otherwise |
| SimpleAuth.GateKeepsLogWellFormed | simple_auth.py:43-48 | a gate call keeps a well-formed log well formed |
| SimpleAuth.RequireSharedPassword | simple_auth.py:51-110 | the method's outcome, new session and new log are those of `Gate` on the old session and log |
| SimpleAuth.RunSignsInOnlyAfterMatch | simple_auth.py:94-99 | over any sequence of renders, a session that ends signed in submitted the exact secret with a non-blank username at some render |
| SimpleAuth.RunStaysSignedIn | simple_auth.py:75-76 | once signed in, every later render proceeds and changes nothing |
| SimpleAuth.RunOfWrongPasswords | simple_auth.py:100-108 | k wrong passwords raise the failure count by k, and the one at index i (counting from 0) halts with the delay for failure count previous + i + 1; the conjunction of the two lemmas below |
| SimpleAuth.RunOfWrongPasswordsCounts | simple_auth.py:100-101 | k wrong passwords leave the session signed out with the failure count raised by exactly k |
| SimpleAuth.RunOfWrongPasswordsDelay | simple_auth.py:100-108 | the wrong password at index k of a run (counting from 0) halts with the delay for failure count previous + k + 1 |
| SimpleAuth.RunLogIsAppendOnly | simple_auth.py:43-48 | over any run the log keeps its rows and stays well formed; it grows by one row per logged attempt, plus the header if the run created it |
| SimpleAuth.RunUnconfigured | simple_auth.py:58-66 | without a secret every render halts, and session and log never change |
| SimpleAuth.HunterScenario | simple_auth.py:94-108 | secret "hunter2", "alice" tries "wrong", "wrong2", "hunter2": delays 750 and 1000 ms, then signed in with 0 failures; the log is the header plus False, False, True rows |
| Launcher.LoadRegistry | app.py:24-34 | an empty config or one without `apps` gives []; a null `apps` fails; a list is returned unchanged iff every entry has `id`, `name` and `page`, otherwise it fails |
| Launcher.FirstWithId | app.py:111 | the index of the first entry, in order, whose `id` is the requested id, or none when no entry has it |
| Launcher.LaunchTarget | app.py:108-120 | the launcher renders iff no `launch` id is given; the page reruns iff the id is given and no entry carries it; otherwise it switches to the `page` of an entry carrying the id (the first one, by `LaunchTargetFirstMatch`) |
| Launcher.LaunchTargetWithoutMatch | app.py:110-114 | no `launch` parameter renders the launcher; an unknown id reruns |
| Launcher.LaunchTargetFirstMatch | app.py:110-120 | a known id switches to the `page` of the first entry that carries it |
| Launcher.HandleLaunch | app.py:107-120 | the navigation is `LaunchTarget` of the old parameters; the parameters are cleared iff a `launch` id was present |
| Launcher.Icon | app.py:127-129 | the card shows an image iff the entry's icon path names a regular file with content, and the image holds that file's bytes |
| Launcher.BuildCards | app.py:124-142 | one card per registry entry, in order, each linking to `./?launch=<id>`, showing `name`, with the entry's icon slot |
| Launcher.IconAsWritten | app.py:127-128 | the icon read as written fails exactly when `ROOT / icon` names a directory, and otherwise gives the corrected icon slot |
| Launcher.CardsAsWritten | app.py:124-142 | the card loop as written either gives one card per entry or fails with the icon path of some entry; `CardsAsWrittenFailsIffDirectoryIcon` says exactly when |
| Launcher.CardsAsWrittenFailsIffDirectoryIcon | app.py:125-131 | the card loop as written fails exactly when some entry's icon path resolves to a directory |
| Launcher.IconlessEntryBreaksLauncher | app.py:127-128 | an entry without an `icon` key makes the card loop as written fail |
| Launcher.CardsAsWrittenAgreeWhenTheyRender | app.py:124-142 | when the loop as written succeeds, its cards are exactly those of `BuildCards` |
| Launcher.CardLinkLaunchesItsApp | app.py:107-132 | a `launch` parameter equal to the card's id switches to that card's page when the id is non-empty and no earlier entry has the same id (the gate at app.py:14 runs first on that render) |
| Launcher.EmptyIdLaunchesNothing | app.py:110 | a link with an empty id launches nothing and the launcher renders |

## Findings

| source | as written | input that shows it | evidently intended | confidence | as-written member | corrected member |
|---|---|---|---|---|---|---|
| app.py:127-128 | `ROOT / app.get("icon", "")` is `ROOT` itself when the entry has no icon. `ROOT` exists, so the code reads it as a file. | an `apps.yaml` entry with `id`, `name` and `page` but no `icon`: reading a directory raises `IsADirectoryError`, and the launcher page fails | line 33 calls the icon optional, so such an entry should get a card with an empty icon slot | high, not executed | Launcher.IconlessEntryBreaksLauncher | Launcher.BuildCards |

The as-written loop is `Launcher.CardsAsWritten`, built on `Launcher.IconAsWritten`. The corrected `Launcher.Icon` reads an icon only when the entry names a regular file. The same failure occurs when `icon` is the empty string or names a directory.

Beyond the gate's documented behaviour, the code handles two more cases:
- a secret-store value that is not a string is ignored (`NotAString`);
- a YAML `apps:` key whose value is null makes iteration raise `TypeError` (`AppsNotIterable`).

## Left out

- All Streamlit rendering is left out: titles, inputs, columns, CSS, and the HTML template passed to `components.html`. It is presentational.
- The `time.sleep` calls are left out, both the throttle's and the splash screen's. Only the delay value is modelled, in integer milliseconds. Every `min(2.0, 0.5 + 0.25*n)` is an exact multiple of 0.25 s.
- Wall-clock time, client IP and User-Agent lookups are opaque strings in `RequestContext`. A missing value is the empty string.
- Filesystem and library I/O is left out: YAML parsing, base64 encoding, `mkdir`, CSV quoting and path normalisation. The registry arrives parsed (`ConfigDoc`). An icon slot holds the file's bytes in place of their base64 text, which is empty exactly when the bytes are. Paths are keys of `FileTree` as written.
- YAML documents that are not a mapping, an `apps` value that is not a list or null, entries that are not mappings, and non-string values are left out. Entries are `map<string, string>`.
- Concurrent writers to the shared log file are left out. The source leaves appends unsynchronised.
- A failing log write is left out (disk full, permissions). The model's appends always succeed.
- An error raised while reading the secret store is folded into `Absent`, as the source's `except Exception: pass` does.
- The three session keys are modelled as one `initialized` flag. Only the gate creates them, and always all three together in one call.
- The splash `booted` flag (app.py:42-73) is left out. It is a one-shot UI toggle.
- The widget's `max_chars=64` username limit is left out. The username is whatever the widget returns.
- A query parameter given several times, and URL encoding of ids in card links, are left out. Links are plain concatenation, as in the source.
- `pages/*` is left out. These files are `chdir` + `runpy` launchers of external scripts, or static UI. `pages/05_Lector_edocat.py` and `pages/06_reporte_consejo.py` do not call the gate at all.
- Text.Strip: its own contract states the length bound and the non-whitespace ends. That the result is the middle slice of the input is the separate lemma `StripIsMiddleSlice`, and `StripEmptyIffAllSpace` gives the blank case.
- Text.IsSpace follows Python's `str.isspace` code points. Unicode data beyond that list is left out.
