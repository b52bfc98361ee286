# chezmerge core in Dafny

chezmerge merges upstream changes to dotfiles into a chezmoi source tree. For
every changed file it compares four texts:

- `base`, the last synced upstream version;
- `theirs`, the new upstream version;
- `ours`, the local file as rendered;
- `template`, the raw local source.

It then decides whether the file can be handled automatically. The files that
need a person are shown one at a time in a four-pane review screen. This
project models three parts of the program and proves what they promise:

- **The decision engine** (`logic.dfy`, module `Logic`).
  - `MergeScenario`, `FileState` and `MergeItem` are datatypes.
  - `DecisionEngine.analyze` is the pure function `Analyze`. Its contract
    gives, for every scenario tag, the exact pattern of content equalities
    that produces it.
- **The path translator** (`paths.dfy`, module `Paths`).
  - A path is its sequence of segments, as pathlib's `parts` gives them.
  - `PathParts` models pathlib dropping empty and `.` segments when it parses
    or joins a path.
  - `normalize_path`, its inner segment loop and `chezmoify_path` are methods
    with the source's loops. Each is proved equal to a specification function:
    `Normalized`, `NormalizedSegment` or `Chezmoified`.
  - The marker-stripping loop is proved against `StripMarkers`, a recursive
    reference definition: the hidden-file marker becomes `.` and stops the
    stripping; an attribute marker at the front is removed, and stripping goes
    on with the rest.
  - The loop's `while True` terminates because every changing pass shortens
    the segment (`decreases |p|`).
  - `find_local_match` is a method over the repository walk, given as a
    sequence of candidates in traversal order.
- **The review screen** (`ui.dfy`, module `Ui`). `ChezmergeApp` is a class
  with the item list, the cursor, the four panes (text and title), the
  subtitle, the focused widget id and the exit value.
  - `Valid()` is the invariant the screen keeps. Only template texts change,
    and only those of items already behind the cursor.

Two paths print the same exactly when their canonical segment sequences are
equal, because a segment never contains the separator. So the string
comparisons of `find_local_match` become sequence equalities here.

Two consequences of the code are worth stating:

- `.tmpl` is stripped once from every segment, not only from the last one
  (`NormalizeSegment`, `TmplStrippedOnce`).
- So normalizing a normalized path again changes it exactly when one of its
  segments still ends in `.tmpl` (`NormalizedIdempotent`,
  `NormalizeNotIdempotent`).

## Model

| member | source | states |
|---|---|---|
| `Logic.NewFileState` | src/chezmerge/logic.py:13-17 | a FileState built without a template flag is not a template |
| `Logic.NewMergeItem` | src/chezmerge/logic.py:44-52 | a MergeItem built without a scenario starts as `Conflict` and keeps the given path and four states |
| `Logic.Analyze` | src/chezmerge/logic.py:20-42 | never `AutoMergeable`; `AlreadySynced` iff ours == theirs, whatever the template flag; `TemplateDivergence` iff template and ours != theirs; `AutoUpdate` iff raw, ours == base, theirs != base; `AutoKeep` iff raw, ours != base, theirs == base; `Conflict` iff raw and the three contents are pairwise different |
| `Logic.AnalyzeIgnoresPathsAndFlags` | src/chezmerge/logic.py:20-42 | the result depends only on the three contents and the template's `is_template`; paths and the other flags are ignored |
| `Logic.TemplateDivergenceIgnoresBase` | src/chezmerge/logic.py:25-30 | for a template, the base does not matter and the result is `AlreadySynced` or `TemplateDivergence` |
| `Logic.OneSidedChangeIsAutomatic` | src/chezmerge/logic.py:36-40 | a raw file where exactly one side left the base is `AutoUpdate` (upstream changed) or `AutoKeep` (local changed), never `Conflict` |
| `Logic.AnalyzeExamples` | src/chezmerge/logic.py:33-40 | base x=1, theirs x=2, ours x=1 is `AutoUpdate`; base x=1, theirs x=1, ours x=9 is `AutoKeep` |
| `Paths.MarkersDisjoint` | src/chezmerge/paths.py:5-8 | no two attribute markers can both begin one segment |
| `Paths.NoMarkerAfter` | src/chezmerge/paths.py:28-35 | a segment beginning with `.` or `d` carries no attribute marker, so after `dot_` becomes `.` no marker matches |
| `Paths.StripMarkers` | src/chezmerge/paths.py:25-38 | marker stripping never lengthens a segment |
| `Paths.DotStep` | src/chezmerge/paths.py:28-30 | replacing `dot_` by `.` keeps the final stripped form |
| `Paths.MarkerStep` | src/chezmerge/paths.py:32-35 | removing whichever marker begins the segment keeps the final stripped form, so the loop's order of trying markers does not matter |
| `Paths.StripMarkersUnmarked` | src/chezmerge/paths.py:25-38 | after stripping, the segment begins with neither `dot_` nor any marker |
| `Paths.StripMarkersFixpoint` | src/chezmerge/paths.py:37-38 | stripping leaves a segment unchanged iff it begins with no marker and not with `dot_` |
| `Paths.MarkerIndex` | src/chezmerge/paths.py:32-33 | the first attribute marker, in list order from a given position, that begins the segment, and no earlier one does; past the end of the list when none does |
| `Paths.StripTmpl` | src/chezmerge/paths.py:20-22 | a segment ending in `.tmpl` loses exactly those five characters; any other segment is kept |
| `Paths.NormalizedSegment` | src/chezmerge/paths.py:17-39 | one segment's normal form is never longer than the segment and begins with neither `dot_` nor any marker |
| `Paths.Normalized` | src/chezmerge/paths.py:10-40 | a normalized path keeps no empty or `.` segment and has no more segments than the path; its segments are normalized one by one (`NormalizedSegmentwise`) |
| `Paths.PathParts` | src/chezmerge/paths.py:15 | pathlib's parsing keeps no empty or `.` segment, never adds one, and leaves an already canonical sequence alone |
| `Paths.PathPartsFrom` | src/chezmerge/paths.py:15 | every segment pathlib keeps is one of the segments it was given |
| `Paths.MarkerPass` | src/chezmerge/paths.py:26-36 | one pass of the `while True` body keeps the final stripped form; a pass that reports a change has shortened the segment, and one that reports none left it alone and found it unmarked |
| `Paths.NormalizeSegment` | src/chezmerge/paths.py:17-39 | the `.tmpl` strip and the `while True` marker loop compute `StripMarkers` of the suffix-stripped segment; the loop terminates because each changing pass shortens the segment |
| `Paths.NormalizePath` | src/chezmerge/paths.py:10-40 | the loop over parts produces the normalized segments in order, with empty results dropped |
| `Paths.NormalizedSegmentwise` | src/chezmerge/paths.py:15-40 | when no segment normalizes to empty, the output has as many segments as the input, each the normal form of the segment in the same place |
| `Paths.SingleSegment` | src/chezmerge/paths.py:15-40 | a one-segment path normalizes to the normal form of that segment when neither is empty or `.` |
| `Paths.PlainSegmentUnchanged` | src/chezmerge/paths.py:17-39 | a segment with no marker, no `dot_` and no `.tmpl` passes through unchanged |
| `Paths.NormalizedUnmarked` | src/chezmerge/paths.py:25-40 | no segment of a normalized path begins with `dot_` or a marker |
| `Paths.NormalizedIdempotent` | src/chezmerge/paths.py:10-40 | normalizing twice equals normalizing once when no normalized segment ends in `.tmpl` |
| `Paths.DotExamples` | src/chezmerge/paths.py:28-30 | `dot_config` becomes `.config`; `dot_private_x` becomes `.private_x`, since nothing is stripped after the dot |
| `Paths.MarkerExample` | src/chezmerge/paths.py:32-35 | `private_foo` becomes `foo` |
| `Paths.StackedMarkersStripped` | src/chezmerge/paths.py:25-38 | any number of stacked markers, in any order, are all stripped |
| `Paths.StackedMarkersExample` | src/chezmerge/paths.py:25-38 | the marker loop turns `private_executable_x` into `x` |
| `Paths.NormalizeExample` | src/chezmerge/paths.py:10-14 | `dot_config/private_foo` normalizes to `.config/foo` |
| `Paths.TmplStrippedOnce` | src/chezmerge/paths.py:20-22 | a segment ending in `.tmpl` loses exactly that suffix and then only its markers |
| `Paths.TmplTwiceSegment` | src/chezmerge/paths.py:20-22 | the segment `a.tmpl.tmpl` becomes `a.tmpl` |
| `Paths.TmplOnceSegment` | src/chezmerge/paths.py:20-22 | the segment `a.tmpl` becomes `a` |
| `Paths.NormalizeNotIdempotent` | src/chezmerge/paths.py:20-22 | `.tmpl` is stripped once per call: `a.tmpl.tmpl` becomes `a.tmpl`, which becomes `a` |
| `Paths.ChezmoifiedSegment` | src/chezmerge/paths.py:51-54 | a chezmoified segment never begins with `.`; a hidden segment grows by the three characters of `dot_` turning its `.` into the marker, and any other segment is kept |
| `Paths.Chezmoified` | src/chezmerge/paths.py:42-55 | a chezmoified path keeps no empty or `.` segment and has no more segments than the path; its segments are chezmoified one by one (`ChezmoifiedSegmentwise`) |
| `Paths.ChezmoifyPath` | src/chezmerge/paths.py:42-55 | the loop over parts produces the chezmoified segments in order |
| `Paths.ChezmoifiedSegmentwise` | src/chezmerge/paths.py:48-55 | every segment survives in place; `.r` becomes `dot_r`, every other segment is untouched, and a segment begins with a marker after chezmoify iff it did before |
| `Paths.SegmentRoundTrip` | src/chezmerge/paths.py:17-54 | a non-empty segment without `.tmpl` that is hidden or unmarked comes back unchanged from chezmoify then normalize: `.r` goes to `dot_r` and back |
| `Paths.NormalizeChezmoifyRoundTrip` | src/chezmerge/paths.py:10-55 | normalizing a chezmoified path gives it back when no segment ends in `.tmpl` and no non-hidden segment begins with `dot_` or a marker |
| `Paths.ChezmoifyNormalizeNotInverse` | src/chezmerge/paths.py:42-55 | the reverse fails: `private_foo` normalizes to `foo`, and `foo` chezmoifies to `foo` |
| `Paths.Skipped` | src/chezmerge/paths.py:65-70 | every non-file is skipped, and every candidate is skipped when the root itself lies under `.git` or `.merge_workspace` |
| `Paths.Matches` | src/chezmerge/paths.py:64-76 | a match is a file with no `.git` or `.merge_workspace` component in its full path whose normalized path is the target |
| `Paths.FindLocalMatch` | src/chezmerge/paths.py:57-78 | returns the first candidate in walk order that is a file, has no `.git` or `.merge_workspace` component in its full path, and normalizes to the target; returns None iff there is none; a `.git` component in the root gives None |
| `Ui.Decimal` | src/chezmerge/ui.py:85 | a number is written with decimal digits and without a leading zero |
| `Ui.DecimalRoundTrip` | src/chezmerge/ui.py:85 | reading the subtitle's numbers back gives the position and the count |
| `Ui.ProgressLabel` | src/chezmerge/ui.py:85 | the subtitle begins with `Merging [`, ends with the item's path, and holds position and count written in decimal |
| `Ui.SaveEdit` | src/chezmerge/ui.py:103-107 | saving sets the current item's template text and changes no other field and no other item |
| `Ui.NextPane` | src/chezmerge/ui.py:51-61 | focus moves theirs → base → ours → template → theirs; from anything else, or from nothing, it moves to template |
| `Ui.FocusCycle` | src/chezmerge/ui.py:51-61 | cycling never stays on a pane, and four cycles return to the start |
| `Ui.ChezmergeApp.constructor` | src/chezmerge/ui.py:35-38 | a new screen holds the given items with the cursor at 0 |
| `Ui.ChezmergeApp.LoadCurrentItem` | src/chezmerge/ui.py:79-101 | with no items or the cursor past the end, it exits with the (edited) items and changes nothing else; otherwise the panes show theirs, base and ours, the editable pane holds the template source and has the focus, and the subtitle shows position cursor + 1 of the count |
| `Ui.ChezmergeApp.SaveMerge` | src/chezmerge/ui.py:103-111 | in range, only the current item's template text is overwritten; past the end, nothing is; the cursor advances by exactly one; then the next item loads, or the screen exits with the items and leaves panes, subtitle and focus as they were; the invariant is kept |
| `Ui.ChezmergeApp.CycleFocus` | src/chezmerge/ui.py:51-61 | the focus moves to `NextPane` of the focused widget |

## Left out

- src/git_ops.py and src/chezmerge/git_ops.py are not part of this model. Every operation there runs git as a subprocess or checks the filesystem.
- src/chezmerge/importer.py is not part of this model. It copies files; its only logic is the call to `chezmoify_path`, which is modelled.
- src/chezmerge/main.py is not part of this model. It holds demo data and prints.
- The fetch, classify, auto-resolve and commit pipeline is not modelled. It includes the `Conflict` to `AutoMergeable` upgrade, staging and the revision pointer. None of these files implements it.
- The repository walk of `find_local_match` is not modelled: `rglob`, `is_file` and `relative_to`. The model takes the walk as a sequence of relative segment sequences with a file flag, in traversal order, plus the segments of the root.
- pathlib's string parsing is left out: separators, absolute roots and drives. A path is given as its segments. Dropping empty and `.` segments is modelled.
- The widgets, CSS, key bindings, `compose`, `on_mount` and clipboard copy and paste are left out. Panes are plain text and title values. `on_mount` only calls `LoadCurrentItem`.
- `Ui.ChezmergeApp.SaveMerge` takes the edited text as a parameter. The source reads it from the editable widget.
- `Ui.ChezmergeApp.LoadCurrentItem` records the exit value, but screen actions are still accepted afterwards. The model does not capture the framework ending the application.
- `Ui.ChezmergeApp` holds its items as values. The source overwrites the content of a shared `FileState` object in place, so other holders of that object would see the change. The model does not capture this aliasing.
