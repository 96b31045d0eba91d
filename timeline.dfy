/** The timeline ("tidsplan") image section of a project: storage path recovery from a
    public URL, the size cap, and the replace and remove step sequences. */
module TimelineImage {
  import opened Base
  import opened Text

  const Marker := "/project-tidsplan/"
  const MaxUploadBytes: nat := 25 * 1024 * 1024

  const TooLargeError := "Filen är för stor (max 25 MB)."
  const UploadError := "Kunde inte ladda upp tidsplansbilden."
  const SaveError := "Kunde inte spara tidsplansbilden på projektet."
  const UploadTechError := "Tekniskt fel vid uppladdning/komprimering."
  const ClearError := "Kunde inte ta bort tidsplansbilden från projektet."
  const RemoveTechError := "Tekniskt fel vid borttagning."

  /** `extractPathFromUrl`. `pathnameOf` stands for `new URL(url).pathname`, None when the
      URL does not parse. */
  function ExtractPathFromUrl(url: Option<string>, pathnameOf: string -> Option<string>): (r: Option<string>)
    ensures r.None? <==>
      !Truthy(url) || pathnameOf(url.value).None? || !Contains(pathnameOf(url.value).value, Marker)
    ensures r.Some? ==>
      var p := pathnameOf(url.value).value; var i := |p| - |r.value| - |Marker|;
      0 <= i && OccursAt(p, Marker, i) && r.value == p[i + |Marker|..]
      && forall j :: 0 <= j < i ==> !OccursAt(p, Marker, j)
  {
    if !Truthy(url) then None
    else match pathnameOf(url.value)
      case None => None
      case Some(p) =>
        var i := IndexOf(p, Marker);
        if i == -1 then None
        else
          assert |p| - |p[i + |Marker|..]| - |Marker| == i;
          Some(p[i + |Marker|..])
  }

  /** The only "/" characters of the marker are its first and its last. */
  lemma MarkerSlashes()
    ensures |Marker| == 18 && Marker[0] == '/' && Marker[17] == '/'
    ensures forall k :: 0 < k < 17 ==> Marker[k] != '/'
  {
    assert Marker == ['/', 'p', 'r', 'o', 'j', 'e', 'c', 't', '-', 't', 'i', 'd', 's', 'p', 'l', 'a', 'n', '/'];
  }

  /** Round trip: the path after the marker comes back, provided the part before the marker
      neither contains it nor ends in "/project-tidsplan" (which would complete an earlier
      marker with the marker's own leading "/"). */
  lemma {:induction false} ExtractRoundTrip(url: string, pathnameOf: string -> Option<string>, prefix: string, path: string)
    requires url != "" && pathnameOf(url) == Some(prefix + Marker + path)
    requires !Contains(prefix, Marker) && !EndsWith(prefix, Marker[..17])
    ensures ExtractPathFromUrl(Some(url), pathnameOf) == Some(path)
  {
    var p := prefix + Marker + path;
    MarkerSlashes();
    assert OccursAt(p, Marker, |prefix|) by {
      assert p[|prefix|..|prefix| + |Marker|] == Marker;
    }
    forall j | 0 <= j < |prefix| ensures !OccursAt(p, Marker, j) {
      if OccursAt(p, Marker, j) {
        if j + |Marker| <= |prefix| {
          assert prefix[j..j + |Marker|] == p[j..j + |Marker|];
          assert OccursAt(prefix, Marker, j);
          assert false;
        } else {
          assert false;
        }
      }
    }
    var i := IndexOf(p, Marker);
    assert i == |prefix|;
    assert p[i + |Marker|..] == path;
  }

  /** Without the second side condition the round trip fails: before the real marker,
      "/project-tidsplan" plus the marker's "/" is found first. */
  lemma MarkerOverlapCounterexample(url: string, pathnameOf: string -> Option<string>)
    requires url != "" && pathnameOf(url) == Some("/project-tidsplan" + Marker + "x")
    ensures !Contains("/project-tidsplan", Marker)
    ensures ExtractPathFromUrl(Some(url), pathnameOf) == Some("project-tidsplan/x")
  {
    var p := "/project-tidsplan" + Marker + "x";
    assert OccursAt(p, Marker, 0) by {
      assert p[..18] == Marker;
    }
    assert p[18..] == "project-tidsplan/x";
  }

  /** The hard cap on the original file: larger files are refused, 25 MiB itself passes. */
  predicate SizeAllowed(size: nat) {
    !(size > MaxUploadBytes)
  }

  lemma SizeCapBoundary()
    ensures SizeAllowed(26214400) && !SizeAllowed(26214401)
  {
  }

  /** `${projectId}/tidsplan-${Date.now()}.jpg`. */
  function StoragePath(projectId: string, now: nat): (r: string)
    ensures StartsWith(r, projectId + "/") && EndsWith(r, ".jpg")
  {
    projectId + "/tidsplan-" + Decimal(now) + ".jpg"
  }

  /** Uploads at different instants go to different paths. */
  lemma {:induction false} StoragePathInjective(projectId: string, a: nat, b: nat)
    requires StoragePath(projectId, a) == StoragePath(projectId, b)
    ensures a == b
  {
    var pa, pb := StoragePath(projectId, a), StoragePath(projectId, b);
    var n := |projectId + "/tidsplan-"|;
    assert |Decimal(a)| == |Decimal(b)|;
    assert Decimal(a) == pa[n..n + |Decimal(a)|];
    assert Decimal(b) == pb[n..n + |Decimal(b)|];
    DecimalInjective(a, b);
  }

  /** One backend step of a sequence, or the notification of the parent component. */
  datatype Step =
    | Upload(uploadPath: string)
    | UpdateRow(url: Option<string>, path: Option<string>)
    | NotifyParent(url: Option<string>, path: Option<string>)
    | RemoveFile(removedPath: string)

  /** What a step sequence does: the steps issued, in order, the `errorMsg` it leaves, and
      whether it ran to its end. */
  datatype Run = Run(steps: seq<Step>, error: Option<string>, completed: bool)

  /** The part of `handleFileChange` after the size check: compress (which may fail), upload,
      link the new image on the project row, notify the parent, then remove the old file. */
  function ReplacePlan(oldPath: Option<string>, filePath: string, publicUrl: string,
                       compressed: bool, upload: Reply<()>, update: Reply<()>, removal: Reply<()>): (r: Run)
    ensures r.completed <==> r.error.None?
    ensures |r.steps| <= 4 && (r.steps != [] ==> r.steps[0] == Upload(filePath))
  {
    if !compressed then Run([], Some(UploadTechError), false)
    else if !upload.Ok? then
      Run([Upload(filePath)], Some(if upload.Failed? then UploadError else UploadTechError), false)
    else if !update.Ok? then
      Run([Upload(filePath), UpdateRow(Some(publicUrl), Some(filePath))],
          Some(if update.Failed? then SaveError else UploadTechError), false)
    else
      var linked := [Upload(filePath), UpdateRow(Some(publicUrl), Some(filePath)), NotifyParent(Some(publicUrl), Some(filePath))];
      if Truthy(oldPath) && oldPath.value != filePath then
        Run(linked + [RemoveFile(oldPath.value)], if removal.Threw? then Some(UploadTechError) else None, !removal.Threw?)
      else
        Run(linked, None, true)
  }

  /** An upload or row-update failure aborts: the parent is not notified and no file is
      removed. */
  lemma ReplaceAbortKeepsOldFile(oldPath: Option<string>, filePath: string, publicUrl: string,
                                 compressed: bool, upload: Reply<()>, update: Reply<()>, removal: Reply<()>)
    requires !compressed || !upload.Ok? || !update.Ok?
    ensures var run := ReplacePlan(oldPath, filePath, publicUrl, compressed, upload, update, removal);
      !run.completed && run.error.Some?
      && forall i :: 0 <= i < |run.steps| ==> !run.steps[i].NotifyParent? && !run.steps[i].RemoveFile?
  {
  }

  /** The old file is removed only after the new one is linked and the parent notified, and
      only when it is known and differs from the new path; once the row is linked, the parent
      is notified and such an old file is removed. */
  lemma ReplaceCleanupRule(oldPath: Option<string>, filePath: string, publicUrl: string,
                           compressed: bool, upload: Reply<()>, update: Reply<()>, removal: Reply<()>)
    ensures var run := ReplacePlan(oldPath, filePath, publicUrl, compressed, upload, update, removal);
      forall i :: 0 <= i < |run.steps| && run.steps[i].RemoveFile? ==>
        i == 3 && run.steps[2] == NotifyParent(Some(publicUrl), Some(filePath))
        && run.steps[1] == UpdateRow(Some(publicUrl), Some(filePath))
        && Some(run.steps[i].removedPath) == oldPath && Truthy(oldPath) && oldPath.value != filePath
    ensures var run := ReplacePlan(oldPath, filePath, publicUrl, compressed, upload, update, removal);
      compressed && upload.Ok? && update.Ok? ==>
        NotifyParent(Some(publicUrl), Some(filePath)) in run.steps
        && (Truthy(oldPath) && oldPath.value != filePath ==> RemoveFile(oldPath.value) in run.steps)
  {
  }

  /** A failed removal of the old file is only a warning: the outcome is that of a
      successful one. */
  lemma ReplaceRemovalFailureIsWarning(oldPath: Option<string>, filePath: string, publicUrl: string,
                                       msg: string)
    ensures ReplacePlan(oldPath, filePath, publicUrl, true, Ok(()), Ok(()), Failed(msg))
         == ReplacePlan(oldPath, filePath, publicUrl, true, Ok(()), Ok(()), Ok(()))
  {
  }

  /** `handleRemoveImage` after its guard: remove the stored file when its path is known,
      then clear the row's image fields, then notify the parent. */
  function RemovalPlan(pathToRemove: Option<string>, removal: Reply<()>, update: Reply<()>): (r: Run)
    ensures r.completed <==> r.error.None?
    ensures r.completed ==> r.steps != [] && r.steps[|r.steps| - 1] == NotifyParent(None, None)
  {
    var removeSteps := if Truthy(pathToRemove) then [RemoveFile(pathToRemove.value)] else [];
    if Truthy(pathToRemove) && removal.Threw? then
      Run(removeSteps, Some(RemoveTechError), false)
    else if !update.Ok? then
      Run(removeSteps + [UpdateRow(None, None)], Some(if update.Failed? then ClearError else RemoveTechError), false)
    else
      Run(removeSteps + [UpdateRow(None, None), NotifyParent(None, None)], None, true)
  }

  /** A storage error does not stop the row from being cleared; only a row error keeps
      the parent unnotified. */
  lemma RemovalOrder(pathToRemove: Option<string>, msg: string, update: Reply<()>)
    ensures var run := RemovalPlan(pathToRemove, Failed(msg), update);
      run == RemovalPlan(pathToRemove, Ok(()), update)
      && UpdateRow(None, None) in run.steps
      && (run.completed <==> update.Ok?)
      && (NotifyParent(None, None) in run.steps <==> update.Ok?)
  {
  }

  /** Only a removal that throws stops the sequence: the row keeps its image and the
      technical error is shown. */
  lemma RemovalThrowStops(p: string, update: Reply<()>)
    requires p != ""
    ensures RemovalPlan(Some(p), Threw, update) == Run([RemoveFile(p)], Some(RemoveTechError), false)
  {
  }

  class TimelineSection {
    const pathnameOf: string -> Option<string>

    /** The props the parent passes in. */
    var projectId: string
    var isOwner: bool
    var imageUrl: Option<string>
    var imagePath: Option<string>

    var uploading: bool
    var errorMsg: Option<string>
    var confirmDeleteImage: bool
    var deletingImage: bool

    /** The path `handleRemoveImage` chose, while its requests are in flight. */
    var pathToRemove: Option<string>

    /** The confirmation dialog stays open while its deletion is in flight. */
    ghost predicate Valid()
      reads this
    {
      deletingImage ==> confirmDeleteImage
    }

    constructor (projectId: string, isOwner: bool, pathnameOf: string -> Option<string>,
                 imageUrl: Option<string>, imagePath: Option<string>)
      ensures Valid()
      ensures this.projectId == projectId && this.isOwner == isOwner && this.pathnameOf == pathnameOf
      ensures this.imageUrl == imageUrl && this.imagePath == imagePath
      ensures !uploading && errorMsg == None && !confirmDeleteImage && !deletingImage && pathToRemove == None
    {
      this.projectId := projectId;
      this.isOwner := isOwner;
      this.pathnameOf := pathnameOf;
      this.imageUrl := imageUrl;
      this.imagePath := imagePath;
      uploading := false;
      errorMsg := None;
      confirmDeleteImage := false;
      deletingImage := false;
      pathToRemove := None;
    }

    /** The parent renders the section with new props; the local state is kept. */
    method ReceiveProps(pid: string, owner: bool, url: Option<string>, path: Option<string>)
      requires Valid()
      modifies this`projectId, this`isOwner, this`imageUrl, this`imagePath
      ensures Valid() && projectId == pid && isOwner == owner && imageUrl == url && imagePath == path
    {
      projectId := pid;
      isOwner := owner;
      imageUrl := url;
      imagePath := path;
    }

    /** `handleFileChange`: `fileSize` is the chosen file's size (None: no file chosen),
        `compressed` whether compression succeeded, `now` the value of `Date.now()`, and
        `publicUrl` the URL storage issues for the new path. */
    method ReplaceImage(fileSize: Option<nat>, compressed: bool, now: nat, publicUrl: string,
                        upload: Reply<()>, update: Reply<()>, removal: Reply<()>)
      returns (steps: seq<Step>)
      requires Valid() && isOwner && !uploading
      modifies this`uploading, this`errorMsg
      ensures Valid() && !uploading
      ensures fileSize.None? ==> steps == [] && errorMsg == old(errorMsg)
      ensures fileSize.Some? && !SizeAllowed(fileSize.value) ==> steps == [] && errorMsg == Some(TooLargeError)
      ensures fileSize.Some? && SizeAllowed(fileSize.value) ==>
        var run := ReplacePlan(Or(old(imagePath), ExtractPathFromUrl(old(imageUrl), pathnameOf)),
                               StoragePath(projectId, now), publicUrl, compressed, upload, update, removal);
        steps == run.steps && errorMsg == run.error
    {
      if fileSize.None? {
        return [];
      }
      errorMsg := None;
      if fileSize.value > MaxUploadBytes {
        errorMsg := Some(TooLargeError);
        return [];
      }
      uploading := true;
      var oldPath := Or(imagePath, ExtractPathFromUrl(imageUrl, pathnameOf));
      steps := [];
      if !compressed {
        errorMsg := Some(UploadTechError);
      } else {
        var filePath := StoragePath(projectId, now);
        steps := steps + [Upload(filePath)];
        if upload.Failed? {
          errorMsg := Some(UploadError);
        } else if upload.Threw? {
          errorMsg := Some(UploadTechError);
        } else {
          steps := steps + [UpdateRow(Some(publicUrl), Some(filePath))];
          if update.Failed? {
            errorMsg := Some(SaveError);
          } else if update.Threw? {
            errorMsg := Some(UploadTechError);
          } else {
            steps := steps + [NotifyParent(Some(publicUrl), Some(filePath))];
            if Truthy(oldPath) && oldPath.value != filePath {
              steps := steps + [RemoveFile(oldPath.value)];
              if removal.Threw? {
                errorMsg := Some(UploadTechError);
              }
            }
          }
        }
      }
      uploading := false;
    }

    /** "Ta bort nuvarande bild", shown to the owner while there is an image URL. */
    method OpenDeleteDialog()
      requires Valid() && isOwner && Truthy(imageUrl)
      modifies this`confirmDeleteImage
      ensures Valid() && confirmDeleteImage
    {
      confirmDeleteImage := true;
    }

    /** The dialog's `onClose`: ignored while the deletion is in flight. */
    method CloseDeleteDialog()
      requires Valid()
      modifies this`confirmDeleteImage
      ensures Valid()
      ensures confirmDeleteImage == old(deletingImage)
    {
      if !deletingImage {
        confirmDeleteImage := false;
      }
    }

    /** The dialog's `onConfirm` (its buttons are disabled while busy): `handleRemoveImage`
        up to its first request. */
    method StartRemoveImage() returns (started: bool)
      requires Valid() && confirmDeleteImage && !deletingImage
      modifies this`errorMsg, this`deletingImage, this`pathToRemove
      ensures Valid()
      ensures started == (Truthy(imageUrl) || Truthy(imagePath))
      ensures !started ==> unchanged(this)
      ensures started ==>
        deletingImage && errorMsg == None && pathToRemove == Or(imagePath, ExtractPathFromUrl(imageUrl, pathnameOf))
    {
      if !Truthy(imageUrl) && !Truthy(imagePath) {
        return false;
      }
      started := true;
      errorMsg := None;
      deletingImage := true;
      pathToRemove := Or(imagePath, ExtractPathFromUrl(imageUrl, pathnameOf));
    }

    /** `handleRemoveImage` after its first request, with the replies of the storage removal
        and of the row update. */
    method FinishRemoveImage(removal: Reply<()>, update: Reply<()>) returns (steps: seq<Step>)
      requires Valid() && deletingImage
      modifies this`errorMsg, this`deletingImage, this`confirmDeleteImage
      ensures Valid() && !deletingImage
      ensures var run := RemovalPlan(pathToRemove, removal, update);
        steps == run.steps && errorMsg == (if run.error.Some? then run.error else old(errorMsg))
        && confirmDeleteImage == !run.completed
    {
      var run := RemovalPlan(pathToRemove, removal, update);
      steps := [];
      if Truthy(pathToRemove) {
        steps := steps + [RemoveFile(pathToRemove.value)];
      }
      if Truthy(pathToRemove) && removal.Threw? {
        errorMsg := Some(RemoveTechError);
      } else {
        steps := steps + [UpdateRow(None, None)];
        if update.Failed? {
          errorMsg := Some(ClearError);
        } else if update.Threw? {
          errorMsg := Some(RemoveTechError);
        } else {
          steps := steps + [NotifyParent(None, None)];
          confirmDeleteImage := false;
        }
      }
      deletingImage := false;
    }
  }
}
