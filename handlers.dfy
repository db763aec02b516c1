/** The outcome logic of the project request handlers in
    apps/projects/views.py. Every collaborator (the project database, the cache
    client, the git client, the filesystem and coverage helpers) is an input:
    either the result it returned or the way its call ended. Each handler gives
    back its reply and the collaborator calls it made, in order. */
module Handlers {
  import opened Wrappers
  import opened Records
  import opened Breadcrumbs

  /** How a call into a collaborator ended: normally, or by raising an
      exception carrying a message. */
  datatype Attempt = Done | Raised(message: string)

  datatype Verb = Get | Post

  /** A directory listing produced by the filesystem helper; its shape is not
      part of this model. */
  type Listing = seq<string>

  /** What the file reader returns: the content (`None` when it has none), the
      language name and the name of its highlighter script. */
  datatype FileRead = FileRead(content: Option<string>, codeType: string, codeTypeScript: string)

  /** The filesystem and coverage helpers the tree view consults. `isDirectory`
      answers whether the path is a directory and the path it resolved to. */
  datatype TreeHelpers = TreeHelpers(
    isDirectory: (Project, Option<string>) -> (bool, string),
    directoryStructure: (string, string) -> Listing,
    readFileWithType: string -> FileRead,
    hitSet: (Project, Option<string>) -> string)

  /** The context a page is rendered with. */
  datatype View =
    | ProjectNode(project: Project)
    | Structure(listing: Listing, breadlinks: seq<Link>)
    | Code(highlights: Option<string>, content: string, codeType: string, codeTypeScript: string,
           breadlinks: seq<Link>)

  /** What a handler hands to the response layer: an API answer (a success flag,
      an optional message, optional data), a page to render, nothing at all, or
      an exception the handler does not catch. */
  datatype Reply =
    | Api(success: bool, message: Option<string>, data: Option<seq<Project>>)
    | Page(template: string, view: View)
    | NoReply
    | Uncaught(error: FormError)

  /** A call into a collaborator. */
  datatype Call =
    | ListProjects
    | LookupProject(name: string)
    | CreateProject(record: Project)
    | Flush(project: Project)
    | IsDirectory(fpath: Option<string>)
    | DirectoryStructure(path: string, requestPath: string)
    | ReadFile(path: string)
    | HitSet(fpath: Option<string>)
    | Switch(dest: string, url: string, revs: seq<string>)
    | Update(dest: string, revs: seq<string>)
  {
    function Kind(): CallKind {
      match this
      case ListProjects => ListKind
      case LookupProject(_) => LookupKind
      case CreateProject(_) => CreateKind
      case Flush(_) => FlushKind
      case IsDirectory(_) => IsDirectoryKind
      case DirectoryStructure(_, _) => StructureKind
      case ReadFile(_) => ReadKind
      case HitSet(_) => HitSetKind
      case Switch(_, _, _) => SwitchKind
      case Update(_, _) => UpdateKind
    }
  }

  /** The collaborator a call goes to, without its arguments. */
  datatype CallKind =
    | ListKind | LookupKind | CreateKind | FlushKind | IsDirectoryKind
    | StructureKind | ReadKind | HitSetKind | SwitchKind | UpdateKind

  datatype Handled = Handled(reply: Reply, calls: seq<Call>)

  const NotFoundMessage: string := "Project is not existed!"

  /** The reply for a project name the database does not know. */
  const NotFound: Reply := Api(false, Some(NotFoundMessage), None)

  /** The content shown for a file that could not be read. */
  const PlaceholderContent: string := "print 'I could not load the content'"

  /** A call that changes something outside the handler. */
  predicate Effect(c: Call) {
    c.CreateProject? || c.Flush? || c.Switch? || c.Update?
  }

  predicate NoEffects(calls: seq<Call>) {
    forall i :: 0 <= i < |calls| ==> !Effect(calls[i])
  }

  /** The number of calls to collaborators of the given kinds. */
  function Count(calls: seq<Call>, kinds: set<CallKind>): (n: nat)
    ensures n <= |calls|
    decreases |calls|
  {
    if calls == [] then 0
    else (if calls[0].Kind() in kinds then 1 else 0) + Count(calls[1..], kinds)
  }

  /** The calls the tree view makes for a known project: the lookup, the
      directory check, then listing the directory or reading the file, and
      after a successful read the coverage lookup. */
  predicate TreeTrace(pname: string, fpath: Option<string>, calls: seq<Call>) {
    (|calls| == 3 || |calls| == 4) &&
    calls[0] == LookupProject(pname) && calls[1] == IsDirectory(fpath) &&
    calls[2].Kind() in {StructureKind, ReadKind} &&
    (|calls| == 4 ==> calls[2].ReadFile? && calls[3] == HitSet(fpath))
  }

  /** `projects_root`: GET lists every project and changes nothing; POST builds
      a record from the form, persists it and renders it, or raises before
      anything is persisted. */
  function ProjectsRoot(verb: Verb, form: Form, gitRepoRoot: string, all: seq<Project>): (r: Handled)
    ensures verb.Get? ==> r.reply == Api(true, None, Some(all)) && NoEffects(r.calls)
    ensures verb.Get? ==> r.calls == [ListProjects]
    ensures verb.Post? ==>
      (Count(r.calls, {CreateKind}) == 1 <==> ProjectRecord(form, gitRepoRoot).Success?)
    ensures verb.Post? && ProjectRecord(form, gitRepoRoot).Success? ==>
      var p := ProjectRecord(form, gitRepoRoot).value;
      r.calls == [CreateProject(p)] && r.reply == Page("project_node.html", ProjectNode(p))
    ensures verb.Post? && ProjectRecord(form, gitRepoRoot).Failure? ==>
      r.reply == Uncaught(ProjectRecord(form, gitRepoRoot).error) && NoEffects(r.calls)
  {
    match verb
    case Get => Handled(Api(true, None, Some(all)), [ListProjects])
    case Post =>
      match ProjectRecord(form, gitRepoRoot)
      case Failure(e) => Handled(Uncaught(e), [])
      case Success(p) => Handled(Page("project_node.html", ProjectNode(p)), [CreateProject(p)])
  }

  /** `clean_project_redis`: flushes the cache partition of a known project.
      It always answers as an API call without data; it succeeds exactly when
      the project is known and the flush did not raise. */
  function CleanProjectRedis(pname: string, found: Option<Project>, flush: Attempt): (r: Handled)
    ensures found.None? ==> r == Handled(NotFound, [LookupProject(pname)])
    ensures found.Some? ==> r.calls == [LookupProject(pname), Flush(found.value)]
    ensures r.reply.Api? && r.reply.data.None?
    ensures r.reply.success <==> found.Some? && flush.Done?
    ensures r.reply.success <==> r.reply.message.None?
    ensures found.Some? && flush.Raised? ==> r.reply.message == Some(flush.message)
  {
    match found
    case None => Handled(NotFound, [LookupProject(pname)])
    case Some(project) =>
      var calls := [LookupProject(pname), Flush(project)];
      match flush
      case Raised(message) => Handled(Api(false, Some(message), None), calls)
      case Done => Handled(Api(true, None, None), calls)
  }

  /** `sync_project`: checks out and then pulls the branch named by the form
      into the working copy of a known project. */
  function SyncProject(pname: string, found: Option<Project>, gitbranch: Option<string>,
                       switch: Attempt, update: Attempt): (r: Handled)
    ensures found.None? ==> r == Handled(NotFound, [LookupProject(pname)])
    ensures found.Some? && gitbranch.None? ==>
      r.reply == Uncaught(MissingField("gitbranch")) && NoEffects(r.calls)
    ensures r.reply == Api(true, None, None) <==>
      found.Some? && gitbranch.Some? && switch.Done? && update.Done?
    ensures found.Some? && gitbranch.Some? && switch.Raised? ==>
      r.reply == Api(false, Some(switch.message), None)
    ensures found.Some? && gitbranch.Some? && switch.Done? && update.Raised? ==>
      r.reply == Api(false, Some(update.message), None)
    // the whole trace: the lookup, the checkout, and the update only after a checkout that succeeded
    ensures found.Some? && gitbranch.None? ==> r.calls == [LookupProject(pname)]
    ensures found.Some? && gitbranch.Some? ==>
      var revs := [gitbranch.value];
      r.calls == [LookupProject(pname), Switch(found.value.fsroot, found.value.gitaddr, revs)] +
        (if switch.Done? then [Update(found.value.fsroot, revs)] else [])
    // every git call targets the project's working copy at the requested branch
    ensures found.Some? ==> |r.calls| >= 1 && r.calls[0] == LookupProject(pname)
    ensures forall i :: 0 <= i < |r.calls| && (r.calls[i].Switch? || r.calls[i].Update?) ==>
      found.Some? && gitbranch.Some? && r.calls[i].revs == [gitbranch.value] &&
      r.calls[i].dest == found.value.fsroot &&
      (r.calls[i].Switch? ==> r.calls[i].url == found.value.gitaddr)
    // an update always comes right after a switch that succeeded
    ensures forall i :: 0 <= i < |r.calls| && r.calls[i].Update? ==>
      0 < i && r.calls[i - 1].Switch? && switch.Done?
  {
    match found
    case None => Handled(NotFound, [LookupProject(pname)])
    case Some(project) =>
      match gitbranch
      case None => Handled(Uncaught(MissingField("gitbranch")), [LookupProject(pname)])
      case Some(branch) =>
        var revs := [branch];
        var checkout := Switch(project.fsroot, project.gitaddr, revs);
        match switch
        case Raised(message) =>
          Handled(Api(false, Some(message), None), [LookupProject(pname), checkout])
        case Done =>
          var calls := [LookupProject(pname), checkout, Update(project.fsroot, revs)];
          match update
          case Raised(message) => Handled(Api(false, Some(message), None), calls)
          case Done => Handled(Api(true, None, None), calls)
  }

  /** `project_tree_path`: renders the directory or file at `fpath` in a known
      project, with its breadcrumbs; an unknown project gets no reply. */
  function ProjectTreePath(pname: string, fpath: Option<string>, found: Option<Project>,
                           helpers: TreeHelpers, requestPath: string): (r: Handled)
    ensures found.None? ==> r == Handled(NoReply, [LookupProject(pname)])
    ensures found.Some? ==>
      r.reply.Page? && !r.reply.view.ProjectNode? &&
      r.reply.view.breadlinks == Crumbs(pname, fpath) &&
      (r.reply.view.Structure? <==> helpers.isDirectory(found.value, fpath).0) &&
      r.reply.template == (if r.reply.view.Structure? then "structure.html" else "code.html") &&
      TreeTrace(pname, fpath, r.calls)
    // the listing, or the read, is made at the path the directory check resolved
    ensures found.Some? ==>
      var resolved := helpers.isDirectory(found.value, fpath).1;
      var file := helpers.readFileWithType(resolved);
      r.reply.Page? && |r.calls| >= 3 &&
      (r.reply.view.Structure? ==>
        r.reply.view.listing == helpers.directoryStructure(resolved, requestPath) &&
        r.calls[2] == DirectoryStructure(resolved, requestPath)) &&
      (r.reply.view.Code? ==> r.calls[2] == ReadFile(resolved)) &&
      (|r.calls| == 4 <==> r.reply.view.Code? && file.content.Some? && file.content.value != "")
    ensures NoEffects(r.calls)
  {
    match found
    case None => Handled(NoReply, [LookupProject(pname)])
    case Some(project) =>
      var (isDir, path) := helpers.isDirectory(project, fpath);
      var breadlinks := Crumbs(pname, fpath);
      var calls := [LookupProject(pname), IsDirectory(fpath)];
      if isDir then
        var listing := helpers.directoryStructure(path, requestPath);
        Handled(Page("structure.html", Structure(listing, breadlinks)),
                calls + [DirectoryStructure(path, requestPath)])
      else
        var file := helpers.readFileWithType(path);
        if file.content.Some? && file.content.value != "" then
          var highlights := helpers.hitSet(project, fpath);
          Handled(Page("code.html", Code(Some(highlights), file.content.value, file.codeType,
                                         file.codeTypeScript, breadlinks)),
                  calls + [ReadFile(path), HitSet(fpath)])
        else
          Handled(Page("code.html", Code(None, PlaceholderContent, "py", "shBrushPython.js", breadlinks)),
                  calls + [ReadFile(path)])
  }

  /** Both the clean and the sync handler answer an unknown project name with
      the same not-found reply and touch neither the cache nor git. */
  lemma UnknownProjectIsNotFound(pname: string, flush: Attempt, gitbranch: Option<string>,
                                 switch: Attempt, update: Attempt)
    ensures var clean := CleanProjectRedis(pname, None, flush);
      var sync := SyncProject(pname, None, gitbranch, switch, update);
      clean == sync && clean.reply == Api(false, Some("Project is not existed!"), None) &&
      NoEffects(clean.calls)
  {
  }

  /** Browsing a known project asks whether the path is a directory exactly
      once, before anything else about the path, and then either lists the
      directory or reads the file, never both. */
  lemma {:induction false} TreeTakesOneBranch(pname: string, fpath: Option<string>, calls: seq<Call>)
    requires TreeTrace(pname, fpath, calls)
    ensures Count(calls, {IsDirectoryKind}) == 1
    ensures Count(calls, {StructureKind, ReadKind}) == 1
    ensures forall i, j ::
      0 <= i < |calls| && 0 <= j < |calls| && calls[i].IsDirectory? && calls[j].Kind() in {StructureKind, ReadKind}
      ==> i < j
  {
    var lookup, check := LookupProject(pname), IsDirectory(fpath);
    var tail := calls[2..];
    assert calls == [lookup] + [check] + tail;
    var branch := tail[0];
    var rest := tail[1..];
    assert tail == [branch] + rest;
    forall kinds: set<CallKind> | kinds == {IsDirectoryKind} || kinds == {StructureKind, ReadKind}
      ensures Count(calls, kinds) == Count([check], kinds) + Count([branch], kinds)
    {
      CountAppend([lookup] + [check], tail, kinds);
      CountAppend([lookup], [check], kinds);
      CountAppend([branch], rest, kinds);
      CountOne(lookup, kinds);
      if rest != [] {
        assert rest == [rest[0]];
        CountOne(rest[0], kinds);
      }
    }
    CountOne(check, {IsDirectoryKind});
    CountOne(check, {StructureKind, ReadKind});
    CountOne(branch, {IsDirectoryKind});
    CountOne(branch, {StructureKind, ReadKind});
  }

  /** An update is attempted only after a successful switch, both with the
      one-element list holding the requested branch; each happens at most once,
      and no git call happens for an unknown project or a missing branch. */
  lemma {:induction false} SyncGitCalls(pname: string, found: Option<Project>, gitbranch: Option<string>,
                                        switch: Attempt, update: Attempt)
    ensures var calls := SyncProject(pname, found, gitbranch, switch, update).calls;
      Count(calls, {SwitchKind}) == (if found.Some? && gitbranch.Some? then 1 else 0) &&
      Count(calls, {UpdateKind}) == (if found.Some? && gitbranch.Some? && switch.Done? then 1 else 0)
  {
    var calls := SyncProject(pname, found, gitbranch, switch, update).calls;
    var lookup := LookupProject(pname);
    forall kinds: set<CallKind> | kinds == {SwitchKind} || kinds == {UpdateKind}
      ensures Count(calls, kinds) ==
        (if |calls| > 1 && calls[1].Kind() in kinds then 1 else 0) +
        (if |calls| > 2 && calls[2].Kind() in kinds then 1 else 0)
    {
      CountOne(lookup, kinds);
      if |calls| == 1 {
        assert calls == [lookup];
      } else if |calls| == 2 {
        assert calls == [lookup] + [calls[1]];
        CountAppend([lookup], [calls[1]], kinds);
        CountOne(calls[1], kinds);
      } else {
        assert calls == [lookup] + [calls[1]] + [calls[2]];
        CountAppend([lookup] + [calls[1]], [calls[2]], kinds);
        CountAppend([lookup], [calls[1]], kinds);
        CountOne(calls[1], kinds);
        CountOne(calls[2], kinds);
      }
    }
  }

  /** Counting over two traces joined is the sum of the counts. */
  lemma {:induction false} CountAppend(xs: seq<Call>, ys: seq<Call>, kinds: set<CallKind>)
    ensures Count(xs + ys, kinds) == Count(xs, kinds) + Count(ys, kinds)
    decreases |xs|
  {
    if xs == [] {
      assert xs + ys == ys;
    } else {
      assert (xs + ys)[1..] == xs[1..] + ys;
      CountAppend(xs[1..], ys, kinds);
    }
  }

  lemma CountOne(c: Call, kinds: set<CallKind>)
    ensures Count([c], kinds) == if c.Kind() in kinds then 1 else 0
  {
  }

  /** A file that cannot be read is shown as a placeholder Python snippet,
      never as an error, and its coverage is not looked up. */
  lemma UnreadableFileShowsPlaceholder(pname: string, fpath: Option<string>, project: Project,
                                       helpers: TreeHelpers, requestPath: string)
    requires !helpers.isDirectory(project, fpath).0
    requires var file := helpers.readFileWithType(helpers.isDirectory(project, fpath).1);
      file.content.None? || file.content.value == ""
    ensures var r := ProjectTreePath(pname, fpath, Some(project), helpers, requestPath);
      r.reply == Page("code.html", Code(None, "print 'I could not load the content'", "py",
                                        "shBrushPython.js", Crumbs(pname, fpath))) &&
      forall i :: 0 <= i < |r.calls| ==> !r.calls[i].HitSet?
  {
  }

  /** A readable file is shown with the reader's content and language, and the
      coverage highlights of that path. */
  lemma ReadableFileShowsContent(pname: string, fpath: Option<string>, project: Project,
                                 helpers: TreeHelpers, requestPath: string)
    requires !helpers.isDirectory(project, fpath).0
    requires var file := helpers.readFileWithType(helpers.isDirectory(project, fpath).1);
      file.content.Some? && file.content.value != ""
    ensures var file := helpers.readFileWithType(helpers.isDirectory(project, fpath).1);
      ProjectTreePath(pname, fpath, Some(project), helpers, requestPath).reply ==
      Page("code.html", Code(Some(helpers.hitSet(project, fpath)), file.content.value,
                             file.codeType, file.codeTypeScript, Crumbs(pname, fpath)))
  {
  }
}
