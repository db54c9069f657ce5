/**
 * The image picker shared by the admin forms
 * (src/components/common/ImageUpload.tsx): the per-file check, the handling
 * of a batch of chosen files, and the removal of one file.
 *
 * The component does not own its file list: it reports a new list through
 * `onFilesChange`. `HandleFiles` therefore returns what the component does
 * with a batch: nothing, an alert with the per-file errors, or a new list.
 */
module ImageUpload {
  import opened Wrappers
  import opened Seqs
  import opened Files

  /** The component's options; `maxSize` is in megabytes. */
  datatype Config = Config(multiple: bool, maxFiles: int, maxSize: int)

  /** The defaults: one file at a time, at most 5 files of at most 10 MB each. */
  const DefaultConfig: Config := Config(false, 5, 10)

  /** `validateFile`: the size limit first, then the image type. */
  function ValidateFile(f: File, maxSize: int): (r: Option<FileProblem>)
    ensures r.None? <==> f.size <= maxSize * MiB && IsImage(f)
    ensures r == Some(TooLarge) <==> f.size > maxSize * MiB
  {
    CheckFile(f, maxSize * MiB)
  }

  function Acceptable(maxSize: int): File -> bool {
    f => ValidateFile(f, maxSize).None?
  }

  /** One line of the alert: the file's name and why it was refused. */
  datatype FileError = FileError(name: string, problem: FileProblem)

  /** The alert lines for a batch, one per refused file, in the order the files were chosen. */
  function ErrorsOf(files: seq<File>, maxSize: int): (errors: seq<FileError>)
    ensures |errors| <= |files|
    decreases |files|
  {
    if files == [] then []
    else
      var last := files[|files| - 1];
      var problem := ValidateFile(last, maxSize);
      ErrorsOf(files[..|files| - 1], maxSize) + (if problem.Some? then [FileError(last.name, problem.value)] else [])
  }

  /** A batch draws no alert line exactly when every file in it passes the check. */
  lemma {:induction false} NoErrorsIffAllAcceptable(files: seq<File>, maxSize: int)
    ensures ErrorsOf(files, maxSize) == [] <==> forall i :: 0 <= i < |files| ==> ValidateFile(files[i], maxSize).None?
    decreases |files|
  {
    if files != [] {
      var init := files[..|files| - 1];
      NoErrorsIffAllAcceptable(init, maxSize);
      assert forall i :: 0 <= i < |init| ==> init[i] == files[i];
    }
  }

  /** What the component does with a batch of chosen files. */
  datatype Outcome = Ignored | Alerted(errors: seq<FileError>) | FilesChanged(files: seq<File>)

  /** The outcome of `handleFiles` for the current list, the number of stored images and the batch. */
  function FilesOutcome(config: Config, current: seq<File>, existing: nat, files: seq<File>): Outcome {
    if |current| + existing + |files| > config.maxFiles then Ignored
    else
      var errors := ErrorsOf(files, config.maxSize);
      if errors != [] then Alerted(errors)
      else
        var accepted := Filter(files, Acceptable(config.maxSize));
        if !config.multiple && |accepted| > 0 then FilesChanged([accepted[0]])
        else FilesChanged(current + accepted)
  }

  /**
   * A batch over the limit is dropped without a word; a batch with a refused
   * file adds nothing and raises the alert; otherwise the single mode keeps
   * the first chosen file alone and the multiple mode appends the batch.
   */
  lemma FilesOutcomeMeaning(config: Config, current: seq<File>, existing: nat, files: seq<File>)
    ensures |current| + existing + |files| > config.maxFiles ==> FilesOutcome(config, current, existing, files) == Ignored
    ensures (|current| + existing + |files| <= config.maxFiles
             && exists i :: 0 <= i < |files| && ValidateFile(files[i], config.maxSize).Some?) ==>
      FilesOutcome(config, current, existing, files) == Alerted(ErrorsOf(files, config.maxSize))
    ensures (|current| + existing + |files| <= config.maxFiles
             && forall i :: 0 <= i < |files| ==> ValidateFile(files[i], config.maxSize).None?) ==>
      FilesOutcome(config, current, existing, files)
        == if !config.multiple && files != [] then FilesChanged([files[0]]) else FilesChanged(current + files)
  {
    NoErrorsIffAllAcceptable(files, config.maxSize);
    if forall i :: 0 <= i < |files| ==> ValidateFile(files[i], config.maxSize).None? {
      FilterKeepsAll(files, Acceptable(config.maxSize));
    }
  }

  /** In the multiple mode an accepted batch never takes the list past the limit. */
  lemma MultipleStaysWithinLimit(config: Config, current: seq<File>, existing: nat, files: seq<File>)
    requires config.multiple
    requires FilesOutcome(config, current, existing, files).FilesChanged?
    ensures |FilesOutcome(config, current, existing, files).files| + existing <= config.maxFiles
  {
  }

  /**
   * `handleFiles`: the count check, then one pass over the batch sorting the
   * files into accepted ones and alert lines, then the new list.
   */
  method HandleFiles(config: Config, current: seq<File>, existing: nat, files: seq<File>)
    returns (outcome: Outcome)
    ensures outcome == FilesOutcome(config, current, existing, files)
  {
    var total := |current| + existing + |files|;
    if total > config.maxFiles {
      return Ignored;
    }
    var newFiles: seq<File> := [];
    var errors: seq<FileError> := [];
    var i := 0;
    while i < |files|
      invariant 0 <= i <= |files|
      invariant newFiles == Filter(files[..i], Acceptable(config.maxSize))
      invariant errors == ErrorsOf(files[..i], config.maxSize)
    {
      var problem := ValidateFile(files[i], config.maxSize);
      if problem.Some? {
        errors := errors + [FileError(files[i].name, problem.value)];
      } else {
        newFiles := newFiles + [files[i]];
      }
      assert files[..i + 1] == files[..i] + [files[i]];
      assert files[..i + 1][..i] == files[..i];
      FilterConcat(files[..i], [files[i]], Acceptable(config.maxSize));
      i := i + 1;
    }
    assert files[..i] == files;
    if |errors| > 0 {
      return Alerted(errors);
    }
    if !config.multiple && |newFiles| > 0 {
      return FilesChanged([newFiles[0]]);
    }
    return FilesChanged(current + newFiles);
  }

  /**
   * In the single mode with room for one file and one file already chosen,
   * choosing a replacement counts both files, so the batch is dropped and the
   * old file stays, with no alert.
   */
  lemma SingleModeCannotReplace(config: Config, current: seq<File>, f: File)
    requires !config.multiple && config.maxFiles == 1 && |current| == 1
    ensures FilesOutcome(config, current, 0, [f]) == Ignored
  {
  }

  /** The count the single mode evidently means: the file it replaces is not counted. */
  function FilesOutcomeIntended(config: Config, current: seq<File>, existing: nat, files: seq<File>): Outcome {
    var kept := if config.multiple then |current| else 0;
    if kept + existing + |files| > config.maxFiles then Ignored
    else
      var errors := ErrorsOf(files, config.maxSize);
      if errors != [] then Alerted(errors)
      else
        var accepted := Filter(files, Acceptable(config.maxSize));
        if !config.multiple && |accepted| > 0 then FilesChanged([accepted[0]])
        else FilesChanged(current + accepted)
  }

  /**
   * With the intended count, an acceptable file chosen in the single mode
   * replaces the current one whenever the stored images leave room for it.
   */
  lemma IntendedSingleModeReplaces(config: Config, current: seq<File>, existing: nat, f: File)
    requires !config.multiple && existing + 1 <= config.maxFiles
    requires ValidateFile(f, config.maxSize).None?
    ensures FilesOutcomeIntended(config, current, existing, [f]) == FilesChanged([f])
  {
    assert ErrorsOf([f], config.maxSize) == ErrorsOf([], config.maxSize);
    assert Filter([f], Acceptable(config.maxSize)) == [f];
  }

  /** The two counts agree in the multiple mode. */
  lemma IntendedAgreesWhenMultiple(config: Config, current: seq<File>, existing: nat, files: seq<File>)
    requires config.multiple
    ensures FilesOutcomeIntended(config, current, existing, files) == FilesOutcome(config, current, existing, files)
  {
  }

  /** `currentFiles.filter((_, i) => i !== index)`: the list without position `index`. */
  function RemoveFile(files: seq<File>, index: int): (r: seq<File>)
    ensures 0 <= index < |files| ==> |r| == |files| - 1
    ensures !(0 <= index < |files|) ==> r == files
    ensures forall k :: 0 <= k < |r| && k < index ==> r[k] == files[k]
    ensures forall k :: 0 <= index <= k < |r| ==> r[k] == files[k + 1]
  {
    if 0 <= index < |files| then files[..index] + files[index + 1..] else files
  }
}
