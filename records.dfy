/** The project record that `projects_root` builds from a submitted form
    (apps/projects/views.py). */
module Records {
  import opened Wrappers
  import opened PyStr
  import PyInt
  import PosixPath

  /** A project: its unique name, the number of its cache partition, its git
      remote, the directory its working copy lives in under the repository
      root, its source labels, and the full path of that working copy. */
  datatype Project = Project(
    pname: string,
    redisdb: int,
    gitaddr: string,
    drname: string,
    sourcelist: seq<string>,
    fsroot: string)

  /** Why building a record raised: a form field was absent (`KeyError`), or the
      cache partition was not an integer (`ValueError`). Neither is caught. */
  datatype FormError = MissingField(field: string) | NotAnInteger(text: string)

  /** The submitted form fields. */
  type Form = map<string, string>

  /** The fields the form must carry, in the order they are read. */
  const FormFields: seq<string> := ["pname", "redisdb", "gitaddr", "drname", "sourcelist"]

  /** The record template every new record starts from; each of its fields is
      overwritten. */
  const Template: Project := Project("", 0, "", "", [], "")

  /** The position of `field` in the reading order, `|FormFields|` for any other name. */
  function FieldRank(field: string): (i: nat)
    ensures i <= |FormFields| && (i < |FormFields| ==> FormFields[i] == field)
    ensures field in FormFields ==> i < |FormFields|
  {
    if field == "pname" then 0
    else if field == "redisdb" then 1
    else if field == "gitaddr" then 2
    else if field == "drname" then 3
    else if field == "sourcelist" then 4
    else 5
  }

  /** True when `field` is one the form must carry and every field read before
      it was present. */
  predicate ReadBefore(form: Form, field: string) {
    FieldRank(field) < |FormFields| &&
    forall j :: 0 <= j < FieldRank(field) ==> FormFields[j] in form
  }

  /** The record built from `form` when the repository root is `gitRepoRoot`.
      It succeeds exactly when all five fields are present and `redisdb` parses;
      the name, remote and directory are kept verbatim, `sourcelist` is the
      comma split of the submitted text (no label holds a comma and joining the
      labels with commas gives the text back), and `fsroot` is the directory
      joined to the root. The first field missing, in reading order, is the one
      reported, and a bad `redisdb` is reported before any later field is read. */
  function ProjectRecord(form: Form, gitRepoRoot: string): (r: Result<Project, FormError>)
    ensures r.Success? <==>
      (forall f :: f in FormFields ==> f in form) && PyInt.ParseInt(form["redisdb"]).Some?
    ensures r.Success? ==>
      r.value.pname == form["pname"] &&
      PyInt.ParseInt(form["redisdb"]) == Some(r.value.redisdb) &&
      r.value.gitaddr == form["gitaddr"] &&
      r.value.drname == form["drname"] &&
      |r.value.sourcelist| >= 1 &&
      (forall k :: 0 <= k < |r.value.sourcelist| ==> ',' !in r.value.sourcelist[k]) &&
      Join(',', r.value.sourcelist) == form["sourcelist"] &&
      r.value.fsroot == PosixPath.Join(gitRepoRoot, form["drname"])
    ensures r.Failure? && r.error.MissingField? ==>
      r.error.field !in form && ReadBefore(form, r.error.field) &&
      (FieldRank(r.error.field) > 1 ==> "redisdb" in form && PyInt.ParseInt(form["redisdb"]).Some?)
    ensures r.Failure? && r.error.NotAnInteger? ==>
      "pname" in form && "redisdb" in form &&
      r.error.text == form["redisdb"] && PyInt.ParseInt(r.error.text).None?
  {
    if "pname" !in form then Failure(MissingField("pname"))
    else if "redisdb" !in form then Failure(MissingField("redisdb"))
    else if PyInt.ParseInt(form["redisdb"]).None? then Failure(NotAnInteger(form["redisdb"]))
    else if "gitaddr" !in form then Failure(MissingField("gitaddr"))
    else if "drname" !in form then Failure(MissingField("drname"))
    else if "sourcelist" !in form then Failure(MissingField("sourcelist"))
    else
      var labels := form["sourcelist"];
      SplitThenJoin(labels, ',');
      SplitPiecesAvoidSeparator(labels, ',');
      Success(Project(
        form["pname"],
        PyInt.ParseInt(form["redisdb"]).value,
        form["gitaddr"],
        form["drname"],
        Split(labels, ','),
        PosixPath.Join(gitRepoRoot, form["drname"])))
  }

  /** The labels of a record are the comma split of the submitted text: any
      non-empty list of comma-free labels that joins back to the text is it. */
  lemma LabelsAreTheSplit(labels: seq<string>, text: string)
    requires |labels| >= 1
    requires forall k :: 0 <= k < |labels| ==> ',' !in labels[k]
    requires Join(',', labels) == text
    ensures labels == Split(text, ',')
  {
    JoinThenSplit(',', labels);
  }

  /** The POST branch of `projects_root` up to persisting: reads the fields in
      order, then fills a copy of the template one field at a time. */
  method FillRecord(form: Form, gitRepoRoot: string) returns (r: Result<Project, FormError>)
    ensures r == ProjectRecord(form, gitRepoRoot)
  {
    if "pname" !in form {
      return Failure(MissingField("pname"));
    }
    var pname := form["pname"];
    if "redisdb" !in form {
      return Failure(MissingField("redisdb"));
    }
    var parsed := PyInt.ParseInt(form["redisdb"]);
    if parsed.None? {
      return Failure(NotAnInteger(form["redisdb"]));
    }
    var redisdb := parsed.value;
    if "gitaddr" !in form {
      return Failure(MissingField("gitaddr"));
    }
    var gitaddr := form["gitaddr"];
    if "drname" !in form {
      return Failure(MissingField("drname"));
    }
    var drname := form["drname"];
    if "sourcelist" !in form {
      return Failure(MissingField("sourcelist"));
    }
    var sourcelist := form["sourcelist"];
    var record := Template;
    record := record.(pname := pname);
    record := record.(redisdb := redisdb);
    record := record.(gitaddr := gitaddr);
    record := record.(drname := drname);
    record := record.(sourcelist := Split(sourcelist, ','));
    record := record.(fsroot := PosixPath.Join(gitRepoRoot, drname));
    r := Success(record);
  }
}
