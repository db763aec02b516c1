# Project handlers of meridian, modelled in Dafny

This project models the request-handling core of the `projects` blueprint of
meridian (`apps/projects/views.py`), a web application that manages projects
backed by a git working copy and a cache partition:

- `bread_link`: the breadcrumb links shown while browsing a project's tree. It is
  modelled twice. `Breadcrumbs.BreadLink` is an imperative method that grows the
  list of url parts and the list of links in a loop, as the source does.
  `Breadcrumbs.Crumbs` is an independent reference definition in which each url
  extends the previous one. The method is proved equal to the reference, and the
  properties are proved about the reference.
- the record that `projects_root` builds from a submitted form (`Records`). It has
  the six named fields; `redisdb` is parsed as Python 2's `int()` does,
  `sourcelist` is split on commas, and `fsroot` is `os.path.join(root, drname)`.
- the outcome logic of `projects_root`, `clean_project_redis`, `sync_project` and
  `project_tree_path` (`Handlers`). These are pure functions over what their
  collaborators returned. Each one gives back the reply and the list of
  collaborator calls it made, in order.

Supporting modules give the Python semantics the handlers rely on:
`PyStr` (`str.split` and `str.join` with a one-character separator, and the
one-character trailing strip), `PyInt` (`int()` on a form value) and
`PosixPath` (`os.path.join` with two arguments). `Wrappers` holds `Option` and
`Result`.

`fsroot` is `os.path.join(root, drname)` (`PosixPath.Join`). No second `/` is
inserted when the root already ends in one, an absolute `drname` replaces the
root entirely, and nothing normalises `..`, so nothing in the code keeps
`fsroot` inside the repository root; the model states this gap and does not
close it. For an unknown project the tree view falls off its end and returns
nothing (`NoReply`); for a known project it never reports a missing path as an
error.

## Model

| member | source | states |
|---|---|---|
| `PyStr.Split` | apps/projects/views.py:133 | `str.split` with a separator never returns an empty list |
| `PyStr.StripOneTrailing` | apps/projects/views.py:132 | the result, followed by the removed `/` when the path ended in one, is the original path: at most one trailing `/` is removed |
| `PyStr.SplitThenJoin` | apps/projects/views.py:133 | joining the pieces of a split with the separator gives back the original string |
| `PyStr.JoinThenSplit` | apps/projects/views.py:38 | a non-empty list of separator-free pieces survives a join followed by a split: the other half of the round trip |
| `PyStr.SplitPiecesAvoidSeparator` | apps/projects/views.py:133 | no piece of a split contains the separator |
| `PyStr.SplitCount` | apps/projects/views.py:133 | a split gives one piece more than there are separators |
| `PyStr.SplitAround` | apps/projects/views.py:133 | a separator between two strings splits them independently |
| `PyStr.JoinAppend` | apps/projects/views.py:138 | joining two non-empty lists puts exactly one separator between their joins |
| `PyStr.Join` | apps/projects/views.py:135-138 | `sep.join(parts)` starts with the first piece; together with `SplitThenJoin`, `JoinThenSplit` and `JoinAppend` this pins it down as the inverse of the split |
| `PyInt.ParseInt` | apps/projects/views.py:28 | `int()` accepts the text exactly when, once the whitespace is trimmed, it is one optional sign followed by one or more digits; a negative result needs a leading `-`. With `ParseIntRoundTrip`, `LeadingZeroIgnored`, `PlusIgnored`, `MinusNegates` and `PaddingIgnored` this pins down the value of every accepted text |
| `PyInt.ParseIntRoundTrip` | apps/projects/views.py:28 | every integer written in decimal is parsed back to itself by `int()` |
| `PyInt.LeadingZeroIgnored` | apps/projects/views.py:28 | a leading `0` before one or more digits does not change the value (`int("007") == 7`) |
| `PyInt.PlusIgnored` | apps/projects/views.py:28 | a leading `+` before one or more digits does not change the value |
| `PyInt.MinusNegates` | apps/projects/views.py:28 | a leading `-` before one or more digits is accepted and negates their value |
| `PyInt.PaddingIgnored` | apps/projects/views.py:28 | whitespace before and after the text does not change what `int()` makes of it |
| `PyInt.BlankIsRejected` | apps/projects/views.py:28 | an empty or all-whitespace `redisdb` makes `int()` raise |
| `PosixPath.Join` | apps/projects/views.py:39-40 | the joined path ends with `drname`; a relative `drname` keeps the root as a prefix and adds exactly one character between them, a `/`, when the root is non-empty and does not end in `/`, and none otherwise; an absolute `drname` replaces the root |
| `PosixPath.JoinComponents` | apps/projects/views.py:39-40 | for a relative `drname` and a non-empty root, the `/`-components of `fsroot` are those of the root, with its one trailing `/` stripped, followed by those of `drname` |
| `Breadcrumbs.BreadLink` | apps/projects/views.py:127-140 | the loop that joins the growing list of url parts yields exactly the reference breadcrumbs `Crumbs` |
| `Breadcrumbs.RootUrlSpelled` | apps/projects/views.py:134-135 | the url joined from `["/projects", pname, "tree"]` is `/projects/<pname>/tree` |
| `Breadcrumbs.JoinedPartsAreTrail` | apps/projects/views.py:134-139 | the url the loop joins from the root parts and the first `i + 1` segments is the url of link `i` of the reference, and that link names segment `i` |
| `Breadcrumbs.Trail` | apps/projects/views.py:136-139 | one link per segment |
| `Breadcrumbs.TrailAt` | apps/projects/views.py:136-139 | link `k` names segment `k`; its url is the root url, a `/`, and the first `k + 1` segments joined by `/` |
| `Breadcrumbs.TrailSnoc` | apps/projects/views.py:136-139 | one more segment adds one link, which extends the previous last url |
| `Breadcrumbs.NoPathNoCrumbs` | apps/projects/views.py:128-130 | the result is empty exactly when the path is `None` or empty |
| `Breadcrumbs.CrumbsShape` | apps/projects/views.py:133-139 | there is one more link than segments; the first is `{pname, <root url>}` with the root url `/projects/<pname>/tree`; link `k + 1` names segment `k` and its url is link `k`'s url, `/`, and segment `k` |
| `Breadcrumbs.CrumbCount` | apps/projects/views.py:132-136 | the number of links is the number of `/` in the path, after its trailing `/` is stripped, plus two |
| `Breadcrumbs.CrumbUrlsGrow` | apps/projects/views.py:136-139 | every url is a proper prefix of every later url |
| `Breadcrumbs.LastUrlRoundTrip` | apps/projects/views.py:132-139 | the last url is the root url, a `/`, and the path without its trailing `/` |
| `Breadcrumbs.TrailingSlashIgnored` | apps/projects/views.py:132 | `a/b/` gives the same links as `a/b` |
| `Breadcrumbs.DoubledTrailingSlash` | apps/projects/views.py:132-133 | `a/b//` gives the links of `a/b` plus one empty-named link whose url ends in `/` |
| `Breadcrumbs.SlashOnly` | apps/projects/views.py:132-139 | the path `/` gives the root link and `{"", <root url>/}` |
| `Breadcrumbs.ThreeSegments` | apps/projects/views.py:127-140 | for slash-free segments `a`, `b` and a non-empty `c`, the path `a/b/c` gives the root link and the links `{a, <root>/a}`, `{b, <root>/a/b}` and `{c, <root>/a/b/c}` |
| `Records.ProjectRecord` | apps/projects/views.py:26-40 | the record exists exactly when all five fields are present and `redisdb` parses. `pname`, `gitaddr` and `drname` are kept verbatim, and `redisdb` is the parsed integer. `sourcelist` is comma-free labels that join back to the submitted text. `fsroot` is the POSIX join of root and `drname`. A failure names the first missing field in reading order, or the unparsable `redisdb` when it comes first |
| `Records.LabelsAreTheSplit` | apps/projects/views.py:38 | those `sourcelist` properties pin the labels down: they are the comma split of the text |
| `Records.FillRecord` | apps/projects/views.py:26-40 | reading the fields in order and filling a template copy field by field gives `ProjectRecord` |
| `Handlers.ProjectsRoot` | apps/projects/views.py:21-47 | GET returns every project unmodified; its only call is the listing, so it changes nothing. POST persists a record exactly when the form is complete, and persists and renders the record `ProjectRecord` builds. An incomplete form raises without persisting anything |
| `Handlers.CleanProjectRedis` | apps/projects/views.py:53-66 | an unknown project gets the not-found reply and no flush; a known one is flushed once. The reply is an API answer without data; it succeeds exactly when the project is known and the flush did not raise, and otherwise carries the exception's message |
| `Handlers.SyncProject` | apps/projects/views.py:109-124 | an unknown project gets the not-found reply and no git call. A missing `gitbranch` raises before any git call. Success means the project is known and both switch and update completed. A known project's whole call trace is fixed: only the lookup when `gitbranch` is missing, otherwise the lookup, the switch, and the update only when the switch completed. No other call (no flush, no create) happens. Every git call targets `fsroot` with `[gitbranch]`, and the switch uses the project's `gitaddr` as its url. An update only ever comes right after a switch that succeeded. A failing switch or update reports its message |
| `Handlers.SyncGitCalls` | apps/projects/views.py:115-122 | switch is called once when the project and branch are known and not otherwise; update is called once exactly when the switch also succeeded |
| `Handlers.UnknownProjectIsNotFound` | apps/projects/views.py:110-113 | clean (lines 56-57) and gitsync give the identical `(True, False, "Project is not existed!", None)` reply for an unknown project and touch neither the cache nor git |
| `Handlers.ProjectTreePath` | apps/projects/views.py:72-101 | an unknown project gets no reply. A known one gets a page whose breadcrumbs are `Crumbs(pname, fpath)`. It is the `structure.html` listing exactly when the directory check says so, otherwise `code.html`. The listing is the one the helper gives for the path the directory check resolved, and the listing or the read is made at that resolved path. The calls are the lookup, the directory check, then the listing or the read, and a fourth call, the coverage lookup, exactly when the read returned content. Browsing changes nothing |
| `Handlers.TreeTakesOneBranch` | apps/projects/views.py:74-92 | in any trace of the tree view's shape, the directory check happens exactly once and before the branch; exactly one of listing the directory and reading the file follows |
| `Handlers.UnreadableFileShowsPlaceholder` | apps/projects/views.py:93-101 | a file with no content is shown as the canned snippet with `code_type` `py` and `shBrushPython.js`, with no highlights, and no coverage lookup happens |
| `Handlers.ReadableFileShowsContent` | apps/projects/views.py:82-92 | a file with content is shown with that content, the reader's language and script, the coverage highlights of the path and the breadcrumbs |

## Left out

- Flask routing, `request`, `current_app`, the `gateway` decorator and template rendering are framework I/O. Replies are a datatype that says what is handed to the response layer, not the HTTP response.
- The project database (`get_all_projects`, `get_project_by_name`, `create_project`) is external persistence. Lookups are an `Option<Project>` input, and persisting is a `CreateProject` call in the trace. These calls can raise, and the handlers do not catch that; the model does not represent a failing database call, so for example `ProjectsRoot` renders the page as if `create_project` always succeeded.
- The cache client and the git client are foreign code doing network and disk work. Their calls are recorded in the trace, and each call's ending (normal or raising with a message) is an input. Building the cache connection and the `Git` object happens outside the `try`, so an exception there propagates; the model does not capture that.
- The tree helpers `is_directory`, `get_directory_structure`, `read_file_with_type` and `get_hit_set` are not shown. They are uninterpreted total functions, so an exception raised inside them (which the handler would not catch) is not modelled. The listing's shape is not modelled (`Listing`), and the highlight set is taken as already converted with `str()`.
- Reading an exception's message through `e.message` is a Python 2 attribute quirk. The model takes the message as given.
- Concurrent clean or gitsync requests racing on one working copy or cache partition are not modelled.
- The record template (`project_schema`) is not shown. `Records.Template` stands in for it, with only the six named fields, all of which are overwritten.
- `Handlers.ProjectTreePath`: the source tests the looked-up record for truthiness (`if project:`). The model treats every found record as true; a record that is an empty dict would be false in Python.
- `PyInt.ParseInt`: models `int()` on ASCII text with ASCII whitespace, an optional sign and ASCII digits. Python 2 also accepts whitespace between the sign and the digits and non-ASCII digits and spaces; the model rejects those.
- Strings are sequences of characters. The distinction between Python 2 byte and unicode strings is not modelled.
