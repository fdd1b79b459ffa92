# Meshroom reconstruction job controller, modelled in Dafny

This project models `meshroom::Job` (`src/models/Job.cpp`), the controller
for one photogrammetry reconstruction job. A job lives in a directory
`<url>`. Its durable state is the descriptor `<url>/job.json`, which holds
the user, name, date, derived paths, the ordered list of image resources and
the attribute values of a fixed three-step pipeline. A job counts as
*started* when `<url>/build` exists next to the descriptor; that state is
read from disk each time, never stored. External worker programs start
a job and report its status and completion as JSON on standard output.

The modules follow the pieces of the controller:

- `Json`: JSON values, the outcome of parsing a text, and the Qt-style
  conversions `toString`, `toArray`, `toObject`, `toDouble` and `toInt`.
  `toInt` is a whole number in the 32-bit range, else 0.
- `FileSystem`: an abstract disk. A `Tree` value holds the directories, the
  files (each stored as the parse outcome of its text) and the paths the
  process may not create, open or write. The `Disk` class holds the current
  tree, which `mkpath`, file writes, reads and `removeRecursively` change.
- `Pipeline`: attributes and steps, the default graph, the ordered
  attribute search, and the steps part of the descriptor.
- `Descriptor`: the `job.json` object written from a job's fields, and
  the functions that read fields back from such an object.
- `Worker`: how one run of the status program changes status and completion.
- `Jobs`: pure specifications of save, start, erase and load on a `Tree`,
  and the `Job` class. Its fields are updated in place by the setters,
  `Save`, `Start`, `Refresh`, `Erase`, `ReadProcessOutput`, `Load` and
  `DeserializeFromJson`. Each of these methods is proved against the
  matching specification function.

Outcomes of the outside world are parameters:
- `Start(finished, run)`: whether waiting for the start program ended with
  it finished, and how the follow-up status run ended.
- `Refresh(run)`: how the status process ended (`NotFinished`, or
  `Finished` with its exit kind and its parsed standard output).
- `IsPairValid(isValid)`: url validity is passed in as a predicate.
- File-system failures come from the tree's `denied` set.

The signal wiring is a `Wiring` value with one flag per connection:
- the job's `dataChanged`, wired to saving;
- the image list's count change, wired to saving;
- the steps' attribute changes, wired to saving;
- the image list's count change, wired to thumbnail selection.

`autoSaveOn` and `autoSaveOff` set or clear the three saving flags. Each
change goes through `Job.Changed`, which saves when its connection is in
place. `load(const Job&)` replaces the image and step lists, and
`LoadFrom` clears the flags of the connections made on the old lists.
`Job.attached` stands for "the job sits in a job list" (`model()` is
non-null); it decides whether a thumbnail is chosen. `Job.Start` checks
`IsStartable` (at least two images, `src/models/Job.cpp:358-366`), and
`StartOn` states the same check on the image count.

## Model

| member | source | states |
|---|---|---|
| Json.AsInt | src/models/Job.cpp:339 | The status read from a report lies in the 32-bit range. A non-zero result is exactly the reported number. A whole number in the 32-bit range comes back as itself. A fraction, a number out of range and a value that is not a number all give 0. |
| Json.Member | src/models/Job.cpp:487 | A present key gives its value. A missing key makes every conversion give its default: empty string, empty array, empty object, 0.0 and 0. |
| FileSystem.AncestorsOfChild | src/models/Job.cpp:220-221 | The directories above `dir/name` are exactly `dir` and the directories above `dir`, so the descriptor and `build` sit directly in the job directory. |
| FileSystem.Tree.MakePath | src/models/Job.cpp:210-215 | `mkpath` leaves files and permissions alone and adds the path and every directory above it. When `mkpath` is allowed (no regular file in the way, no missing directory that may not be created), the tree stays consistent: no path is both a file and a directory. |
| FileSystem.Tree.Write | src/models/Job.cpp:218-228 | Writing the descriptor changes exactly that file. Reading it back gives the written content, every other path reads as before, and the tree stays consistent. |
| FileSystem.Tree.Remove | src/models/Job.cpp:302-307 | `removeRecursively` leaves nothing at or below the root. Everything else keeps its existence and kind, and reads as before. The tree stays consistent. |
| FileSystem.NothingBelowMissing | src/models/Job.cpp:302-307 | In a consistent tree nothing exists below a directory that does not exist, so skipping the removal of a missing job directory loses nothing. |
| FileSystem.Disk.MakePath | src/models/Job.cpp:210-215 | `mkpath` succeeds exactly when the directory exists, or when neither it nor any directory above it is a regular file and every missing one may be created. On success the disk becomes `Tree.MakePath`; on failure it stays as it was. |
| FileSystem.Disk.Write | src/models/Job.cpp:216-230 | Opening for writing succeeds exactly when allowed. The disk changes only on success. |
| FileSystem.Disk.RemoveRecursively | src/models/Job.cpp:264-266 | The disk becomes `Tree.Remove` of the root. |
| Pipeline.DefaultGraph | src/models/Job.cpp:408-441 | The pipeline is well formed: three steps named `feature_detection`, `meshing` and `sfm`, in that order. Each has one attribute, with key `describerPreset` (combo), `scale` (slider) and `initial_pair` (pair selector) respectively. The combo's default is one of its options, and the slider's default lies within its range. |
| Pipeline.KeyIndexFrom | src/models/Job.cpp:32-42 | The inner loop finds the first attribute at or after `j` with the key, and none exactly when no later attribute has it. |
| Pipeline.FindAttributeFrom | src/models/Job.cpp:25-43 | The nested search from step `i` on returns a match that precedes every other match at or after `i`, and none exactly when no match exists there. |
| Pipeline.FindAttribute | src/models/Job.cpp:20-44 | The lookup returns the first (step, attribute) pair in order whose step name and attribute key match. It returns none exactly when no pair matches. |
| Pipeline.GetAttribute | src/models/Job.cpp:20-44 | The nested loops with `continue` and early return compute exactly `FindAttribute`. |
| Pipeline.InitialPairOfTemplate | src/models/Job.cpp:374-406 | In any pipeline with the default graph's shape, the initial-pair lookup succeeds at the third step's only attribute. |
| Pipeline.DefaultInitialPair | src/models/Job.cpp:432-438 | A new job's initial pair is two empty paths. |
| Pipeline.AttributeValuesAt | src/models/Job.cpp:460-468 | In the serialized steps object, every attribute of a step with unique keys is stored under its key with its value. |
| Pipeline.StepsObjectAt | src/models/Job.cpp:460-468 | In the serialized steps object, every step of a well-formed pipeline is stored under its name with its attribute values. |
| Pipeline.LoadStepsKeepsShape | src/models/Job.cpp:494-503 | Reading the steps back changes attribute values only, never names, keys, types or order. |
| Pipeline.EditKeepsShape | src/models/Job.cpp:180-187 | Editing one attribute's value keeps the pipeline's shape. |
| Pipeline.LoadStepsRoundTrip | src/models/Job.cpp:460-503 | Loading the steps object of a well-formed pipeline into a pipeline of the same shape reproduces every attribute value. |
| Descriptor.Serialize | src/models/Job.cpp:443-476 | The descriptor has exactly the keys date, user, name, paths, resources and steps. Its paths are `<url>/build` and `<url>/build/matches`. |
| Descriptor.RoundTrip | src/models/Job.cpp:443-505 | Reading back a serialized job reproduces its user, its name, its images in order and all the values of its pipeline. |
| Descriptor.ReadBackIgnoresDateAndPaths | src/models/Job.cpp:478-505 | Whatever `date` and `paths` hold, reading back gives the same user, name, resources and steps. |
| Worker.Ingest | src/models/Job.cpp:309-340 | Four outcomes: an abnormal exit or unparseable output sets status 4 and keeps completion; a report missing `completion` or `status` changes nothing; a full report sets both to the reported values. |
| Worker.ReportTaken | src/models/Job.cpp:336-339 | A report of any completion and any 32-bit status is taken exactly. |
| Worker.LastReportWins | src/models/Job.cpp:336-339 | A full report overrides whatever an earlier status run did. |
| Jobs.DescriptorInJobDir | src/models/Job.cpp:220-221 | The descriptor's directory is the job directory. |
| Jobs.BuildInJobDir | src/models/Job.cpp:243-244 | The build directory's parent is the job directory. |
| Jobs.SaveOn | src/models/Job.cpp:204-232 | Save succeeds exactly when the job is not started, the job directory can be made and the descriptor can be opened. A started job or a failed `mkpath` leaves the disk untouched. A failure writes no file. On success the job directory exists and the descriptor holds the serialized state. Consistency is kept. |
| Jobs.StartOn | src/models/Job.cpp:234-274 | Starting fails, leaving the disk unchanged, on a started job. With fewer than two images (the `isStartable` check) it fails after the save has written the descriptor. A failure leaves `build` absent when it was absent. An unfinished worker leaves the job not started. Success holds exactly when save, the image check, `mkpath build` and the worker all succeed, and it leaves the job started. |
| Jobs.StartedIsFinal | src/models/Job.cpp:204-237 | After a successful start, saving and starting again both fail and change nothing on disk. |
| Jobs.SaveTwice | src/models/Job.cpp:204-232 | Saving a second time leaves the disk as the first save left it, so a change that reaches `save()` twice has the effect of one save. |
| Jobs.FileInTheWay | src/models/Job.cpp:210-215 | A regular file at the job directory's path makes saving and starting fail. A regular file at `<url>/build` makes starting fail and leaves the job not started. |
| Jobs.EraseOn | src/models/Job.cpp:302-307 | Erasing removes the job directory and everything below it, touches nothing outside it, and leaves the job neither stored nor started. A missing directory leaves the disk as it was. |
| Jobs.SaveThenLoad | src/models/Job.cpp:132-232 | After a successful save, the descriptor on disk parses to the serialized object. Loading it into a new job of the same pipeline shape reproduces url, user, name, images and every attribute value. |
| Jobs.LoadAppends | src/models/Job.cpp:486-493 | Loading keeps the existing images in front and adds one image per resource. |
| Jobs.Job.constructor | src/models/Job.cpp:62-78 | A new job lives at `<project>/reconstructions/<stamp>` and is named after the stamp. It has the default pipeline and no images. Every connection is in place: the three saving connections and thumbnail selection. |
| Jobs.Job.IsStoredOnDisk | src/models/Job.cpp:351-356 | The descriptor exists; in a consistent disk the job directory then exists too. |
| Jobs.Job.IsStarted | src/models/Job.cpp:368-372 | Started means the build directory and the descriptor exist, so a started job is stored on disk. |
| Jobs.Job.AutoSaveOn | src/models/Job.cpp:176-188 | Connects the job's change signal, the image list and the steps to saving, and changes nothing else. |
| Jobs.Job.AutoSaveOff | src/models/Job.cpp:190-202 | Disconnects all three from saving, and changes nothing else. |
| Jobs.Job.Changed | src/models/Job.cpp:178-179 | A change signal saves exactly when its connection to `save()` is in place. |
| Jobs.Job.SetUrl | src/models/Job.cpp:80-86 | Sets the url. It saves only when the value differs and `dataChanged` is connected to saving. |
| Jobs.Job.SetName | src/models/Job.cpp:88-94 | Sets the name. It saves only when the value differs and `dataChanged` is connected to saving. |
| Jobs.Job.SetDate | src/models/Job.cpp:96-102 | Sets the date. It saves only when the value differs and `dataChanged` is connected to saving. |
| Jobs.Job.SetUser | src/models/Job.cpp:104-110 | Sets the user. It saves only when the value differs and `dataChanged` is connected to saving. |
| Jobs.Job.SetCompletion | src/models/Job.cpp:112-115 | Sets the completion, with no save. |
| Jobs.Job.SetStatus | src/models/Job.cpp:117-120 | Sets the status, with no save. |
| Jobs.Job.SetThumbnail | src/models/Job.cpp:122-125 | Sets the thumbnail, with no save. |
| Jobs.Job.AddImage | src/models/Job.cpp:77 | Adding an image appends it. The count change saves when the image list is connected to saving (line 179), and selects the thumbnail when it is connected to thumbnail selection (line 77). |
| Jobs.Job.EditAttribute | src/models/Job.cpp:180-187 | Changing one attribute value changes only that value. It saves when the steps are connected to saving. |
| Jobs.Job.Save | src/models/Job.cpp:204-232 | The result and the new disk are exactly `SaveOn` of the old disk, the url and the serialized state. |
| Jobs.Job.Start | src/models/Job.cpp:234-274 | The result and the new disk are exactly `StartOn`. Only after success does a refresh apply the status run. Otherwise the fields stay unchanged. |
| Jobs.Job.Refresh | src/models/Job.cpp:276-300 | A job that is not started gets status -1 and nothing else happens. A started one takes in the status run's outcome. |
| Jobs.Job.Erase | src/models/Job.cpp:302-307 | The new disk is `EraseOn` of the old one, so the job is neither stored on disk nor started. |
| Jobs.Job.ReadProcessOutput | src/models/Job.cpp:309-340 | Status and completion become `Ingest` of their old values and the run, and no other field changes. |
| Jobs.Job.SelectThumbnail | src/models/Job.cpp:342-349 | When attached, the thumbnail becomes the first image, or an empty url without images. When not attached, nothing changes. |
| Jobs.Job.Load | src/models/Job.cpp:132-164 | It succeeds exactly when the directory exists and the descriptor can be read and parsed. A missing directory changes no field. A failed read or parse still sets the url. Success sets the state to the descriptor read into it. |
| Jobs.Job.LoadFrom | src/models/Job.cpp:166-174 | Copies images, pipeline and thumbnail from the other job and returns true. The connections on the replaced lists are lost: image and step changes no longer save, and the thumbnail is no longer selected. Every other field is kept. |
| Jobs.Job.DeserializeFromJson | src/models/Job.cpp:478-505 | Replaces user and name only when present, and appends the resources in order. It re-selects the thumbnail when any were added and the image list is connected to thumbnail selection. It applies the step values and leaves every saving connection in place. |
| Jobs.Job.AddResources | src/models/Job.cpp:486-493 | The loop appends one image per resources element, in order, while auto-save is off. Each addition re-selects the thumbnail when connected to do so. |
| Jobs.Job.LoadStepValues | src/models/Job.cpp:494-503 | The loop lets every step read its values from the steps object, which is `LoadSteps`. |
| Jobs.Job.IsRegisteredImage | src/models/Job.cpp:46-58 | True exactly when the url is among the images. |
| Jobs.Job.IsPairA | src/models/Job.cpp:374-383 | True exactly when the initial-pair lookup succeeds and its list has a first element equal to the url's path. |
| Jobs.Job.IsPairB | src/models/Job.cpp:385-394 | True exactly when the lookup succeeds and its list has a second element equal to the url's path. |
| Jobs.Job.IsPairValid | src/models/Job.cpp:396-406 | True exactly when the lookup succeeds, the list has at least two elements and both give valid urls. |

## Left out

- Launching the start and status programs (`QProcess`, the `MESHROOM_START_COMMAND` / `MESHROOM_STATUS_COMMAND` lookups, timeouts) is left out; only how each wait ended is a parameter. `Refresh` takes in the status run at once, as the in-process `finished` signal delivers it before `waitForFinished` returns.
- JSON text encoding and decoding are left out; a file holds its parse outcome, and standard output arrives already parsed.
- The default name and url take the timestamp and the user as parameters, because `QDateTime` formatting and `getenv("USER")` are environment input.
- `QUrl` values are their local path strings; `QUrl::isValid` is a parameter of `IsPairValid`, because its rules are Qt's.
- `Step`, `Attribute` and `Resource` serialization are not shown. The model takes a step's entry as an object from attribute key to value under the step name, a resource as its path string, and later entries as overwriting earlier ones with the same name or key.
- `JobModel::setData` is not shown, so status, completion and thumbnail updates through the job list are direct field writes. `Refresh` and `ReadProcessOutput` do not model the null `model()` that an unattached job would dereference.
- Null step or attribute entries are left out because the model has no null values. This includes the null-step dereference in the attribute search.
- `setModelIndex` is left out; it only records the job's row in the job list.
- Signal/slot connection multiplicity is not modelled: calling `autoSaveOn` twice makes two connections, but each flag records only whether one exists. `Jobs.SaveTwice` shows a repeated save changes nothing more on disk.
- Jobs.Job.LoadFrom: requires `other != this`, because a job loading itself in the source reads the image and step lists it has just deleted (`src/models/Job.cpp:168-170`), a use after free with no defined behaviour.
- The `qCritical`, `qWarning` and `qInfo` diagnostics on every failure path are left out; they are log output and change no state.
- Memory management in `load(const Job&)` is left out beyond the copied images, pipeline and thumbnail.
- The completion is a real number, not a `float`, because 32-bit rounding does not change any behaviour here.
- Status -1 and completion 0 for a new job are assumed, because the header with the field initialisers is not part of this model.
- `FileSystem.Tree.Remove`: `removeRecursively` always succeeds in the model, although on a real disk it can fail part way.
- Path normalisation (`..`, repeated '/', symbolic links) is left out; paths are compared as strings.
- `Erase` does not stop a worker that may still be running, and neither does the source.
- The destructor and event-loop ordering are left out, because they belong to Qt's object lifetime.
