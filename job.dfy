/** The reconstruction job controller: its state, the disk operations that
    persist and start it, the status refresh, and reading a descriptor back.
    The pure functions at the top specify what the methods of `Job` do to
    the disk; the class holds the fields the controller updates in place. */
module Jobs {
  import opened Json
  import opened FileSystem
  import opened Pipeline
  import opened Descriptor
  import opened Worker

  lemma DescriptorInJobDir(url: Path)
    ensures Ancestors(DescriptorFile(url)) == Ancestors(url) + {url}
  {
    AncestorsOfChild(url, DESCRIPTOR_NAME);
  }

  lemma BuildInJobDir(url: Path)
    ensures Ancestors(BuildDir(url)) == Ancestors(url) + {url}
  {
    assert BuildDir(url) == url + "/" + "build";
    AncestorsOfChild(url, "build");
  }

  /** A job is started when its build directory exists and its descriptor exists. */
  predicate Started(t: Tree, url: Path)
  {
    t.IsDir(BuildDir(url)) && t.Exists(DescriptorFile(url))
  }

  /** Whether an operation succeeded, and the disk it left behind. */
  datatype Outcome = Outcome(ok: bool, tree: Tree)

  /** Saving: refused once started; otherwise create the job directory, then
      write the descriptor. */
  function SaveOn(t: Tree, url: Path, doc: JsonObject): (r: Outcome)
    ensures Started(t, url) ==> r == Outcome(false, t)
    ensures !t.CanMakePath(url) ==> r == Outcome(false, t)
    ensures r.ok <==> && !Started(t, url) && t.CanMakePath(url)
                      && DescriptorFile(url) !in t.denied && !t.IsDir(DescriptorFile(url))
    ensures r.ok ==> r.tree.IsDir(url) && r.tree.files == t.files[DescriptorFile(url) := Document(Object(doc))]
    ensures r.ok ==> r.tree.Read(DescriptorFile(url)) == Some(Document(Object(doc)))
    ensures !r.ok ==> r.tree.files == t.files
    ensures r.tree.denied == t.denied
    ensures r.tree.dirs == t.dirs || r.tree.dirs == t.dirs + {url} + Ancestors(url)
    ensures t.Valid() ==> r.tree.Valid()
  {
    if Started(t, url) || !t.CanMakePath(url) then Outcome(false, t)
    else
      var made := t.MakePath(url);
      var file := DescriptorFile(url);
      DescriptorInJobDir(url);
      assert file !in Ancestors(url) + {url} by {
        if file in Ancestors(url) {
          AncestorsAreShorter(url, file);
        }
      }
      if made.CanWrite(file) then Outcome(true, made.Write(file, Document(Object(doc))))
      else Outcome(false, made)
  }

  /** Starting: save, check there are at least two images, create the build
      directory, run the start program; remove the build directory again when
      the program does not finish. */
  function StartOn(t: Tree, url: Path, doc: JsonObject, images: nat, finished: bool): (r: Outcome)
    ensures Started(t, url) ==> r == Outcome(false, t)
    ensures images < 2 ==> r == Outcome(false, SaveOn(t, url, doc).tree)
    ensures !finished ==> !r.ok
    ensures r.ok <==> && SaveOn(t, url, doc).ok && images >= 2
                      && SaveOn(t, url, doc).tree.CanMakePath(BuildDir(url)) && finished
    ensures r.ok ==> Started(r.tree, url)
    ensures !r.ok && !t.IsDir(BuildDir(url)) ==> !r.tree.IsDir(BuildDir(url)) && !Started(r.tree, url)
    ensures SaveOn(t, url, doc).ok && images >= 2 && !finished ==> !Started(r.tree, url)
    ensures SaveOn(t, url, doc).ok ==> r.tree.Read(DescriptorFile(url)) == Some(Document(Object(doc)))
    ensures t.Valid() ==> r.tree.Valid()
  {
    var saved := SaveOn(t, url, doc);
    var build := BuildDir(url);
    assert build !in Ancestors(url) + {url} by {
      if build in Ancestors(url) {
        AncestorsAreShorter(url, build);
      }
    }
    DescriptorInJobDir(url);
    assert !Under(DescriptorFile(url), build) by {
      if build in Ancestors(DescriptorFile(url)) {
        AncestorsAreShorter(url + "/", build);
      }
    }
    if !saved.ok || images < 2 || !saved.tree.CanMakePath(build) then Outcome(false, saved.tree)
    else
      var built := saved.tree.MakePath(build);
      if finished then Outcome(true, built)
      else Outcome(false, built.Remove(build))
  }

  /** Saving twice in a row leaves the disk as saving once does, so a change
      delivered to save() more than once has the effect of a single save. */
  lemma SaveTwice(t: Tree, url: Path, doc: JsonObject)
    ensures SaveOn(SaveOn(t, url, doc).tree, url, doc).tree == SaveOn(t, url, doc).tree
  {
    var t1 := SaveOn(t, url, doc).tree;
    var build := BuildDir(url);
    assert build !in Ancestors(url) + {url} by {
      if build in Ancestors(url) {
        AncestorsAreShorter(url, build);
      }
    }
    if !Started(t, url) && t.CanMakePath(url) {
      assert t1.IsDir(build) == t.IsDir(build);
      assert t1.dirs == t.MakePath(url).dirs;
      assert t1.MakePath(url) == t1;
    }
  }

  /** A regular file where the job directory or its build directory should
      be makes `mkpath` fail: saving and starting fail and the job is not started. */
  lemma FileInTheWay(t: Tree, url: Path, doc: JsonObject, images: nat, finished: bool)
    requires t.Valid()
    ensures url in t.files ==> !SaveOn(t, url, doc).ok && !StartOn(t, url, doc, images, finished).ok
    ensures BuildDir(url) in t.files ==> && !StartOn(t, url, doc, images, finished).ok
                                         && !Started(StartOn(t, url, doc, images, finished).tree, url)
  {
    if BuildDir(url) in t.files {
      assert !t.IsDir(BuildDir(url));
      var saved := SaveOn(t, url, doc).tree;
      if SaveOn(t, url, doc).ok {
        DescriptorInJobDir(url);
        assert BuildDir(url) != DescriptorFile(url);
      }
      assert BuildDir(url) in saved.files && saved.Valid();
    }
  }

  /** Once started, a job stays frozen: saving and starting it again both
      fail and leave the disk as it is. */
  lemma StartedIsFinal(t: Tree, url: Path, doc: JsonObject, images: nat,
                       doc2: JsonObject, images2: nat, finished2: bool)
    requires StartOn(t, url, doc, images, true).ok
    ensures var started := StartOn(t, url, doc, images, true).tree;
            && SaveOn(started, url, doc2) == Outcome(false, started)
            && StartOn(started, url, doc2, images2, finished2) == Outcome(false, started)
  {
  }

  /** Erasing: remove the job directory and everything in it, when it exists. */
  function EraseOn(t: Tree, url: Path): (r: Tree)
    ensures !t.IsDir(url) ==> r == t
    ensures forall p | !Under(p, url) :: r.Exists(p) == t.Exists(p)
    ensures t.Valid() ==> r.Valid()
    ensures t.Valid() ==> !r.IsDir(url) && forall p | url in Ancestors(p) :: !r.Exists(p)
    ensures t.Valid() ==> !r.Exists(DescriptorFile(url)) && !Started(r, url)
  {
    DescriptorInJobDir(url);
    if t.IsDir(url) then t.Remove(url) else t
  }

  /** Which signal connections are in place: the job's own change signal,
      the image list's count change and the steps' attribute changes wired
      to saving, and the image count change wired to thumbnail selection. */
  datatype Wiring = Wiring(dataSave: bool, imagesSave: bool, stepsSave: bool, imagesThumbnail: bool)
  {
    /** After autoSaveOn: every change is wired to saving. */
    function Armed(): Wiring
    {
      this.(dataSave := true, imagesSave := true, stepsSave := true)
    }

    /** After autoSaveOff: no change is wired to saving. */
    function Disarmed(): Wiring
    {
      this.(dataSave := false, imagesSave := false, stepsSave := false)
    }
  }

  /** A job's fields, as one value. */
  datatype JobState = JobState(url: Path, name: string, user: string, date: string,
                               status: int, completion: real, thumbnail: Path,
                               images: seq<Path>, steps: seq<Step>, wiring: Wiring)
  {
    function ProgressOf(): Progress
    {
      Progress(status, completion)
    }

    function WithProgress(p: Progress): JobState
    {
      this.(status := p.status, completion := p.completion)
    }

    /** The descriptor object for this state. */
    function ToJson(): JsonObject
    {
      Serialize(url, date, user, name, images, steps)
    }
  }

  /** What the thumbnail is set to: the first image, or an empty url when
      there is none. */
  function FirstImage(images: seq<Path>): Path
  {
    if |images| > 0 then images[0] else ""
  }

  /** The state after reading the descriptor object `obj`: user and name
      replaced when present, images appended, step values applied, the
      thumbnail re-selected when images were added and the image list is
      wired to thumbnail selection, auto-save on. */
  function Loaded(s: JobState, obj: JsonObject, attached: bool): JobState
  {
    var added := ResourcesOf(obj);
    s.(user := UserOf(obj, s.user),
       name := NameOf(obj, s.name),
       images := s.images + added,
       thumbnail := if attached && s.wiring.imagesThumbnail && |added| > 0 then FirstImage(s.images + added)
                    else s.thumbnail,
       steps := LoadSteps(s.steps, StepsOf(obj)),
       wiring := s.wiring.Armed())
  }

  /** The object in a job directory's descriptor, when it can be read and parsed. */
  function DescriptorObject(t: Tree, url: Path): Option<JsonObject>
  {
    match t.Read(DescriptorFile(url))
    case Some(Document(root)) => Some(AsObject(root))
    case _ => None
  }

  /** The descriptor is the durable source of truth: after a successful save,
      loading the job directory into a new job of the same pipeline shape
      reproduces the url, user, name, images and every attribute value. */
  lemma SaveThenLoad(t: Tree, s: JobState, target: JobState, attached: bool)
    requires SaveOn(t, s.url, s.ToJson()).ok
    requires WellFormed(s.steps) && ShapeOf(target.steps) == ShapeOf(s.steps) && target.images == []
    ensures var saved := SaveOn(t, s.url, s.ToJson()).tree;
            DescriptorObject(saved, s.url) == Some(s.ToJson())
    ensures var l := Loaded(target.(url := s.url), s.ToJson(), attached);
            l.url == s.url && l.user == s.user && l.name == s.name && l.images == s.images && l.steps == s.steps
  {
    RoundTrip(s.url, s.date, s.user, s.name, s.images, s.steps, target.steps, target.user, target.name);
  }

  /** Loading appends: reading a descriptor into a job that already has
      images keeps them in front of the loaded ones. */
  lemma LoadAppends(s: JobState, obj: JsonObject, attached: bool)
    ensures Loaded(s, obj, attached).images[..|s.images|] == s.images
    ensures |Loaded(s, obj, attached).images| == |s.images| + |ResourcesOf(obj)|
  {
  }

  class Job {
    var url: Path
    var name: string
    var user: string
    var date: string
    var status: int
    var completion: real
    var thumbnail: Path
    var images: seq<Path>
    var steps: seq<Step>
    var wiring: Wiring
    /** Whether the job sits in a job list, which status, completion and
        thumbnail updates go through. */
    const attached: bool
    const disk: Disk

    function State(): JobState
      reads this
    {
      JobState(url, name, user, date, status, completion, thumbnail, images, steps, wiring)
    }

    /** The disk is consistent and the pipeline keeps the default shape. */
    ghost predicate Valid()
      reads this, disk
    {
      disk.tree.Valid() && ShapeOf(steps) == ShapeOf(DefaultGraph())
    }

    function ToJson(): JsonObject
      reads this
    {
      State().ToJson()
    }

    /** A new job under the project directory, named after its creation time,
        with the default pipeline, no images and auto-save on. */
    constructor (projectPath: Path, date: string, stamp: string, envUser: string, attached: bool, disk: Disk)
      requires disk.tree.Valid()
      ensures Valid()
      ensures State() == JobState(projectPath + "/reconstructions/" + stamp, stamp, envUser, date,
                                  NOT_STARTED, 0.0, "", [], DefaultGraph(), Wiring(true, true, true, true))
      ensures this.attached == attached && this.disk == disk
    {
      url := projectPath + "/reconstructions/" + stamp;
      name := stamp;
      user := envUser;
      this.date := date;
      status := NOT_STARTED;
      completion := 0.0;
      thumbnail := "";
      images := [];
      steps := DefaultGraph();
      wiring := Wiring(true, true, true, true);
      this.attached := attached;
      this.disk := disk;
    }

    // -------------------------------------------------------------------
    // Queries on the disk

    predicate IsStoredOnDisk()
      reads this, disk
      ensures IsStoredOnDisk() && disk.tree.Valid() ==> disk.tree.IsDir(url)
    {
      DescriptorInJobDir(url);
      disk.tree.Exists(DescriptorFile(url))
    }

    predicate IsStarted()
      reads this, disk
      ensures IsStarted() ==> IsStoredOnDisk()
    {
      Started(disk.tree, url)
    }

    predicate IsStartable()
      reads this
    {
      |images| >= 2
    }

    // -------------------------------------------------------------------
    // Auto-save

    method AutoSaveOn()
      modifies this
      ensures State() == old(State()).(wiring := old(wiring).Armed())
    {
      wiring := wiring.Armed();
    }

    method AutoSaveOff()
      modifies this
      ensures State() == old(State()).(wiring := old(wiring).Disarmed())
    {
      wiring := wiring.Disarmed();
    }

    /** A change signal: saves when the connection that carries it to save()
        is in place. */
    method Changed(wired: bool)
      requires Valid()
      modifies disk
      ensures Valid()
      ensures disk.tree == if wired then SaveOn(old(disk.tree), url, ToJson()).tree else old(disk.tree)
    {
      if wired {
        var saved := Save();
      }
    }

    // -------------------------------------------------------------------
    // Setters

    method SetUrl(u: Path)
      requires Valid()
      modifies this, disk
      ensures Valid()
      ensures State() == old(State()).(url := u)
      ensures disk.tree == if old(url) != u && wiring.dataSave then SaveOn(old(disk.tree), u, ToJson()).tree
                           else old(disk.tree)
    {
      if url == u {
        return;
      }
      url := u;
      Changed(wiring.dataSave);
    }

    method SetName(n: string)
      requires Valid()
      modifies this, disk
      ensures Valid()
      ensures State() == old(State()).(name := n)
      ensures disk.tree == if old(name) != n && wiring.dataSave then SaveOn(old(disk.tree), url, ToJson()).tree
                           else old(disk.tree)
    {
      if name == n {
        return;
      }
      name := n;
      Changed(wiring.dataSave);
    }

    method SetDate(d: string)
      requires Valid()
      modifies this, disk
      ensures Valid()
      ensures State() == old(State()).(date := d)
      ensures disk.tree == if old(date) != d && wiring.dataSave then SaveOn(old(disk.tree), url, ToJson()).tree
                           else old(disk.tree)
    {
      if date == d {
        return;
      }
      date := d;
      Changed(wiring.dataSave);
    }

    method SetUser(u: string)
      requires Valid()
      modifies this, disk
      ensures Valid()
      ensures State() == old(State()).(user := u)
      ensures disk.tree == if old(user) != u && wiring.dataSave then SaveOn(old(disk.tree), url, ToJson()).tree
                           else old(disk.tree)
    {
      if user == u {
        return;
      }
      user := u;
      Changed(wiring.dataSave);
    }

    method SetCompletion(c: real)
      modifies this
      ensures State() == old(State()).(completion := c)
    {
      completion := c;
    }

    method SetStatus(s: int)
      modifies this
      ensures State() == old(State()).(status := s)
    {
      status := s;
    }

    method SetThumbnail(t: Path)
      modifies this
      ensures State() == old(State()).(thumbnail := t)
    {
      thumbnail := t;
    }

    /** An image added to the image list: its count change saves when that
        signal is wired to saving, then selects the thumbnail when it is wired
        to thumbnail selection. */
    method AddImage(p: Path)
      requires Valid()
      modifies this, disk
      ensures Valid()
      ensures State() == old(State()).(images := old(images) + [p],
                                       thumbnail := if attached && wiring.imagesThumbnail then FirstImage(old(images) + [p])
                                                    else old(thumbnail))
      ensures disk.tree == if wiring.imagesSave then SaveOn(old(disk.tree), url, ToJson()).tree else old(disk.tree)
    {
      images := images + [p];
      Changed(wiring.imagesSave);
      if wiring.imagesThumbnail {
        SelectThumbnail();
      }
    }

    /** A new value for attribute `j` of step `i`: the attribute list's change
        saves when the steps are wired to saving. */
    method EditAttribute(i: nat, j: nat, v: Value)
      requires Valid() && i < |steps| && j < |steps[i].attributes|
      modifies this, disk
      ensures Valid()
      ensures var attrs := old(steps[i].attributes);
              State() == old(State()).(steps := old(steps)[i := old(steps[i]).(attributes := attrs[j := attrs[j].(value := v)])])
      ensures disk.tree == if wiring.stepsSave then SaveOn(old(disk.tree), url, ToJson()).tree else old(disk.tree)
    {
      var attrs := steps[i].attributes;
      EditKeepsShape(steps, i, j, v);
      steps := steps[i := steps[i].(attributes := attrs[j := attrs[j].(value := v)])];
      Changed(wiring.stepsSave);
    }

    // -------------------------------------------------------------------
    // Persistence and lifecycle

    method Save() returns (ok: bool)
      requires Valid()
      modifies disk
      ensures Valid()
      ensures Outcome(ok, disk.tree) == SaveOn(old(disk.tree), url, ToJson())
    {
      if IsStarted() {
        return false;
      }
      var json := ToJson();
      var made := disk.MakePath(url);
      if !made {
        return false;
      }
      DescriptorInJobDir(url);
      ok := disk.Write(DescriptorFile(url), Document(Object(json)));
    }

    /** Start the job; `finished` is whether waiting for the start program
        ended with it finished, and `run` the outcome of the status program
        run by the refresh that follows a successful start. */
    method Start(finished: bool, run: StatusRun) returns (ok: bool)
      requires Valid()
      modifies this, disk
      ensures Valid()
      ensures Outcome(ok, disk.tree) == StartOn(old(disk.tree), url, ToJson(), |images|, finished)
      ensures State() == if ok then old(State()).WithProgress(AfterStatus(old(State()).ProgressOf(), run))
                         else old(State())
    {
      var saved := Save();
      if !saved {
        return false;
      }
      if !IsStartable() {
        return false;
      }
      var built := disk.MakePath(BuildDir(url));
      if !built {
        return false;
      }
      if !finished {
        disk.RemoveRecursively(BuildDir(url));
        return false;
      }
      Refresh(run);
      ok := true;
    }

    /** Refresh the status: a job that is not started is marked so; for a
        started one the status program is run and its outcome taken in. */
    method Refresh(run: StatusRun)
      requires Valid()
      modifies this
      ensures Valid()
      ensures State() == if IsStarted() then old(State()).WithProgress(AfterStatus(old(State()).ProgressOf(), run))
                         else old(State()).(status := NOT_STARTED)
    {
      if !IsStarted() {
        status := NOT_STARTED;
        return;
      }
      match run {
        case NotFinished =>
        case Finished(normalExit, stdout) =>
          ReadProcessOutput(normalExit, stdout);
      }
    }

    method Erase()
      requires Valid()
      modifies disk
      ensures Valid()
      ensures disk.tree == EraseOn(old(disk.tree), url)
      ensures !IsStoredOnDisk() && !IsStarted()
    {
      if disk.tree.IsDir(url) {
        disk.RemoveRecursively(url);
      }
    }

    /** Take in the outcome of a finished run of the status program. */
    method ReadProcessOutput(normalExit: bool, stdout: Parsed)
      modifies this
      ensures State() == old(State()).WithProgress(Ingest(old(State()).ProgressOf(), normalExit, stdout))
    {
      if !normalExit {
        status := ERROR;
        return;
      }
      match stdout {
        case Malformed =>
          status := ERROR;
        case Document(root) =>
          var json := AsObject(root);
          if !("completion" in json) || !("status" in json) {
            return;
          }
          completion := AsDouble(json["completion"]);
          status := AsInt(json["status"]);
      }
    }

    method SelectThumbnail()
      modifies this
      ensures State() == if attached then old(State()).(thumbnail := FirstImage(images)) else old(State())
    {
      if !attached {
        return;
      }
      thumbnail := FirstImage(images);
    }

    // -------------------------------------------------------------------
    // Loading

    method Load(u: Path) returns (ok: bool)
      requires Valid()
      modifies this
      ensures Valid()
      ensures ok <==> disk.tree.IsDir(u) && DescriptorObject(disk.tree, u).Some?
      ensures !disk.tree.IsDir(u) ==> State() == old(State())
      ensures disk.tree.IsDir(u) && !ok ==> State() == old(State()).(url := u)
      ensures ok ==> State() == Loaded(old(State()).(url := u), DescriptorObject(disk.tree, u).value, attached)
    {
      if !disk.tree.IsDir(u) {
        return false;
      }
      url := u;
      var data := disk.Read(DescriptorFile(u));
      if data.None? || data.value.Malformed? {
        return false;
      }
      DeserializeFromJson(AsObject(data.value.root));
      return true;
    }

    /** Copy images, pipeline and thumbnail from another job. The copies are
        new image and step lists, so the connections made on the old ones are
        gone: their changes no longer save or select a thumbnail. */
    method LoadFrom(other: Job) returns (ok: bool)
      requires Valid() && other != this && ShapeOf(other.steps) == ShapeOf(DefaultGraph())
      modifies this
      ensures Valid() && ok
      ensures State() == old(State()).(images := other.images, steps := other.steps, thumbnail := other.thumbnail,
                                       wiring := old(wiring).(imagesSave := false, stepsSave := false,
                                                              imagesThumbnail := false))
    {
      images := other.images;
      steps := other.steps;
      wiring := wiring.(imagesSave := false, stepsSave := false, imagesThumbnail := false);
      thumbnail := other.thumbnail;
      return true;
    }

    method DeserializeFromJson(obj: JsonObject)
      requires Valid()
      modifies this
      ensures Valid()
      ensures State() == Loaded(old(State()), obj, attached)
    {
      AutoSaveOff();
      if "user" in obj {
        user := AsString(obj["user"]);
      }
      if "name" in obj {
        name := AsString(obj["name"]);
      }
      AddResources(AsArray(Member(obj, "resources")));
      LoadStepValues(AsObject(Member(obj, "steps")));
      AutoSaveOn();
    }

    /** One image per element of the resources array, in order, added while
        auto-save is off; each addition re-selects the thumbnail when the image
        list is wired to thumbnail selection. */
    method AddResources(items: seq<Value>)
      requires !wiring.imagesSave
      modifies this
      ensures State() == old(State()).(images := old(images) + Paths(items),
                                       thumbnail := if attached && wiring.imagesThumbnail && |items| > 0
                                                    then FirstImage(old(images) + Paths(items))
                                                    else old(thumbnail))
    {
      var i := 0;
      while i < |items|
        invariant 0 <= i <= |items|
        invariant images == old(images) + Paths(items[..i])
        invariant thumbnail == if attached && wiring.imagesThumbnail && i > 0 then FirstImage(images) else old(thumbnail)
        invariant url == old(url) && name == old(name) && user == old(user) && date == old(date)
        invariant status == old(status) && completion == old(completion)
        invariant steps == old(steps) && wiring == old(wiring)
      {
        assert Paths(items[..i + 1]) == Paths(items[..i]) + [AsString(items[i])];
        images := images + [AsString(items[i])];
        if wiring.imagesThumbnail {
          SelectThumbnail();
        }
        i := i + 1;
      }
      assert items[..i] == items;
    }

    /** Every step reads its attribute values from the steps object. */
    method LoadStepValues(stepsObject: JsonObject)
      requires ShapeOf(steps) == ShapeOf(DefaultGraph())
      modifies this
      ensures ShapeOf(steps) == ShapeOf(DefaultGraph())
      ensures State() == old(State()).(steps := LoadSteps(old(steps), stepsObject))
    {
      var j := 0;
      while j < |steps|
        invariant 0 <= j <= |steps| && |steps| == |old(steps)|
        invariant forall k | 0 <= k < j :: steps[k] == LoadStep(old(steps)[k], stepsObject)
        invariant forall k | j <= k < |steps| :: steps[k] == old(steps)[k]
        invariant url == old(url) && name == old(name) && user == old(user) && date == old(date)
        invariant status == old(status) && completion == old(completion)
        invariant images == old(images) && thumbnail == old(thumbnail) && wiring == old(wiring)
      {
        steps := steps[j := LoadStep(steps[j], stepsObject)];
        j := j + 1;
      }
      assert steps == LoadSteps(old(steps), stepsObject);
      LoadStepsKeepsShape(old(steps), stepsObject);
    }

    // -------------------------------------------------------------------
    // Read-only queries

    method IsRegisteredImage(u: Path) returns (b: bool)
      ensures b <==> u in images
    {
      if |images| <= 0 {
        return false;
      }
      var i := 0;
      while i < |images|
        invariant 0 <= i <= |images|
        invariant u !in images[..i]
      {
        if images[i] == u {
          return true;
        }
        i := i + 1;
      }
      assert images[..i] == images;
      return false;
    }

    method IsPairA(u: Path) returns (b: bool)
      ensures b <==> match InitialPair(steps)
                     case None => false
                     case Some(pair) => |pair| > 0 && pair[0] == Text(u)
    {
      var l := GetAttribute(steps, "sfm", "initial_pair");
      if l.None? {
        return false;
      }
      var pair := AsArray(steps[l.value.step].attributes[l.value.attr].value);
      b := |pair| > 0 && pair[0] == Text(u);
    }

    method IsPairB(u: Path) returns (b: bool)
      ensures b <==> match InitialPair(steps)
                     case None => false
                     case Some(pair) => |pair| > 1 && pair[1] == Text(u)
    {
      var l := GetAttribute(steps, "sfm", "initial_pair");
      if l.None? {
        return false;
      }
      var pair := AsArray(steps[l.value.step].attributes[l.value.attr].value);
      b := |pair| > 1 && pair[1] == Text(u);
    }

    /** `isValid` stands for "the local file url made from this element is valid". */
    method IsPairValid(isValid: Value -> bool) returns (b: bool)
      ensures b <==> match InitialPair(steps)
                     case None => false
                     case Some(pair) => |pair| > 1 && isValid(pair[0]) && isValid(pair[1])
    {
      var l := GetAttribute(steps, "sfm", "initial_pair");
      if l.None? {
        return false;
      }
      var pair := AsArray(steps[l.value.step].attributes[l.value.attr].value);
      b := |pair| > 1 && isValid(pair[0]) && isValid(pair[1]);
    }
  }
}
