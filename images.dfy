/**
 * The image saver: choose a file format from the image's mode, probe a
 * palette image for further frames, and save it once, either as one
 * multi-frame file or as a plain single-frame file.
 */
module Images {
  import opened Wrappers
  import opened Text
  import opened Reports

  /** What `seek` to a frame does: move there, raise EOFError, or raise another error. */
  datatype SeekOutcome = Moved | EndOfFile | Fault

  /**
   * An image as the saver sees it.  `mode` is None when reading the mode
   * raises; `seeks[k - 1]` is what `seek(k)` does, and every seek past the
   * listed ones raises EOFError.  The image starts at frame 0.
   */
  datatype Image = Image(mode: Option<string>, seeks: seq<SeekOutcome>)

  /** One call of the image library's `save`: target path, format token, the frames written in order, and whether it succeeded. */
  datatype SaveCall = SaveCall(path: string, format: string, frames: seq<nat>, written: bool)

  const PhotoModes: seq<string> := ["RGB", "L", "F", "CMYK"]
  const PaletteModes: seq<string> := ["P", "PA", "1"]

  /** The format token chosen for a mode; unknown modes are saved as PNG, not rejected. */
  function FormatFor(mode: string): (format: string)
    ensures format in ["JPEG", "GIF", "SVG", "PNG"]
    ensures format == "JPEG" <==> mode in PhotoModes
    ensures format == "GIF" <==> mode in PaletteModes
    ensures format == "SVG" <==> mode == "SVG"
  {
    if mode in PhotoModes then "JPEG"
    else if mode in PaletteModes then "GIF"
    else if mode in ["SVG"] then "SVG"
    else "PNG"
  }

  /** What `seek(k)` does, for k >= 1. */
  function SeekTo(image: Image, k: nat): SeekOutcome
    requires k >= 1
  {
    if k <= |image.seeks| then image.seeks[k - 1] else EndOfFile
  }

  /** The number of seeks that succeed before the first one that raises. */
  function LeadingMoves(seeks: seq<SeekOutcome>): (n: nat)
    ensures n <= |seeks|
    ensures forall i :: 0 <= i < n ==> seeks[i] == Moved
    ensures n < |seeks| ==> seeks[n] != Moved
  {
    if seeks == [] || seeks[0] != Moved then 0 else 1 + LeadingMoves(seeks[1..])
  }

  /** How many frames the probe collects: frame 0, then one per successful seek. */
  function FrameCount(image: Image): (n: nat)
    ensures n >= 1
  {
    1 + LeadingMoves(image.seeks)
  }

  /** The frame indices 0, 1, ..., n - 1: each index below n once, in increasing order. */
  function Frames(n: nat): (frames: seq<nat>)
    ensures |frames| == n
    ensures forall i, j :: 0 <= i < j < n ==> frames[i] < frames[j]
    ensures forall k: nat :: k in frames <==> k < n
  {
    var frames := seq(n, i requires 0 <= i => i as nat);
    assert forall i :: 0 <= i < |frames| ==> frames[i] == i;
    forall k: nat | k < n
      ensures k in frames
    {
      assert frames[k] == k;
    }
    frames
  }

  /** Copying one more frame appends the next index, as `frames.append` does in the probe. */
  lemma FramesSnoc(n: nat)
    ensures Frames(n + 1) == Frames(n) + [n]
  {
    var longer, shorter := Frames(n + 1), Frames(n);
    forall i | 0 <= i < n + 1
      ensures longer[i] == (shorter + [n])[i]
    {
      if i < n {
        assert longer[i] == i && shorter[i] == i;
      }
    }
  }

  /** The probe stops at the first seek that raises: seek(FrameCount) raises, every earlier seek moves. */
  lemma ProbeStopsAtFirstRaise(image: Image)
    ensures SeekTo(image, FrameCount(image)) != Moved
    ensures forall k :: 1 <= k < FrameCount(image) ==> SeekTo(image, k) == Moved
  {
  }

  /** What `save_image` does, as a value: the save calls, the logger calls, and the final `tangent_save` and `file_mode`. */
  datatype SaveEffect = SaveEffect(saves: seq<SaveCall>, notes: seq<Note>, tangentSave: bool, fileMode: Option<string>)

  /** The plain single-frame save to `<dir>/<name>.<FORMAT>`. */
  function PlainSave(path: string, fileName: string, format: string, saveOk: bool): SaveEffect
  {
    SaveEffect([SaveCall(path, format, [0], saveOk)],
               if saveOk then [Note(ImageSaved(fileName, format), Some("l"), Some("green"))]
               else [Note(SavingError(format), Some("cl"), Some("red"))],
               false, Some(format))
  }

  /**
   * `save_image` into `outputDir`.  `saveOk` is whether the one save call
   * that is made succeeds.
   */
  function SaveImageEffect(outputDir: Option<string>, image: Image, fileName: string, saveOk: bool): SaveEffect
  {
    if !Truthy(outputDir) then
      SaveEffect([], [Note(OutputPathUndefined, Some("cl"), Some("yellow"))], false, None)
    else match image.mode
      case None => SaveEffect([], [Note(ModeNotDiscovered, Some("cl"), Some("red"))], false, None)
      case Some(mode) =>
        var format := FormatFor(mode);
        var path := PathJoin(outputDir.value, fileName) + "." + format;
        if format == "GIF" then
          var n := FrameCount(image);
          var probeNotes := if SeekTo(image, n) == Fault then [Note(ProcessingError(format), Some("cl"), Some("red"))] else [];
          if n > 1 then
            SaveEffect([SaveCall(path, format, Frames(n), saveOk)],
                       probeNotes + [if saveOk then Note(ImageSaved(fileName, format), Some("cl"), Some("green"))
                                     else Note(SavingError(format), Some("cl"), Some("red"))],
                       true, Some(format))
          else
            var plain := PlainSave(path, fileName, format, saveOk);
            plain.(notes := probeNotes + plain.notes)
        else
          PlainSave(path, fileName, format, saveOk)
  }

  /** Without an output directory nothing is saved and only a yellow warning is logged. */
  lemma NoOutputDirNoSave(outputDir: Option<string>, image: Image, fileName: string, saveOk: bool)
    requires !Truthy(outputDir)
    ensures SaveImageEffect(outputDir, image, fileName, saveOk).saves == []
    ensures SaveImageEffect(outputDir, image, fileName, saveOk).notes
         == [Note(OutputPathUndefined, Some("cl"), Some("yellow"))]
  {
  }

  /**
   * With an output directory and a readable mode exactly one save call is
   * made, its format is FormatFor(mode), and its target is `<dir>/<name>.<FORMAT>`.
   */
  lemma ExactlyOneSave(outputDir: Option<string>, image: Image, fileName: string, saveOk: bool)
    requires Truthy(outputDir) && image.mode.Some?
    ensures var e := SaveImageEffect(outputDir, image, fileName, saveOk);
            && |e.saves| == 1
            && e.saves[0].format == FormatFor(image.mode.value)
            && e.saves[0].path == PathJoin(outputDir.value, fileName) + "." + FormatFor(image.mode.value)
            && e.saves[0].written == saveOk
            && e.fileMode == Some(FormatFor(image.mode.value))
  {
  }

  /**
   * A palette image with more than one frame is saved once, with all its
   * frames 0, 1, ... in probe order, and the plain save is skipped.
   */
  lemma MultiFrameSave(outputDir: Option<string>, image: Image, fileName: string, saveOk: bool)
    requires Truthy(outputDir) && image.mode.Some? && image.mode.value in PaletteModes
    requires FrameCount(image) > 1
    ensures var e := SaveImageEffect(outputDir, image, fileName, saveOk);
            && e.tangentSave
            && e.saves == [SaveCall(PathJoin(outputDir.value, fileName) + "." + "GIF", "GIF", Frames(FrameCount(image)), saveOk)]
  {
  }

  /** Any other image gets the plain save of frame 0 alone, with `tangent_save` false. */
  lemma SingleFrameSave(outputDir: Option<string>, image: Image, fileName: string, saveOk: bool)
    requires Truthy(outputDir) && image.mode.Some?
    requires image.mode.value !in PaletteModes || FrameCount(image) == 1
    ensures var e := SaveImageEffect(outputDir, image, fileName, saveOk);
            && !e.tangentSave
            && |e.saves| == 1 && e.saves[0].frames == [0]
  {
  }

  /**
   * The probe runs only for palette modes: for every other mode the frames
   * the image has make no difference to what is saved or logged.
   */
  lemma ProbeOnlyForPalette(outputDir: Option<string>, image: Image, other: Image, fileName: string, saveOk: bool)
    requires image.mode == other.mode
    requires image.mode.Some? ==> image.mode.value !in PaletteModes
    ensures SaveImageEffect(outputDir, image, fileName, saveOk) == SaveImageEffect(outputDir, other, fileName, saveOk)
  {
  }

  /** The outcome depends on the image only through its mode and the frames the probe collects. */
  lemma EffectDependsOnModeAndFrames(outputDir: Option<string>, image: Image, other: Image, fileName: string, saveOk: bool)
    requires image.mode == other.mode && FrameCount(image) == FrameCount(other)
    requires SeekTo(image, FrameCount(image)) == SeekTo(other, FrameCount(other))
    ensures SaveImageEffect(outputDir, image, fileName, saveOk) == SaveImageEffect(outputDir, other, fileName, saveOk)
  {
  }

  /** An animation whose seek to a sixth frame signals the end is saved as one file of its five frames in order. */
  lemma FiveFrameAnimation(fileName: string)
    ensures var image := Image(Some("P"), [Moved, Moved, Moved, Moved, EndOfFile]);
            SaveImageEffect(Some("images"), image, fileName, true).saves
            == [SaveCall(PathJoin("images", fileName) + "." + "GIF", "GIF", [0, 1, 2, 3, 4], true)]
  {
    var image := Image(Some("P"), [Moved, Moved, Moved, Moved, EndOfFile]);
    assert LeadingMoves(image.seeks[4..]) == 0;
    assert FrameCount(image) == 5;
    assert Frames(5) == [0, 1, 2, 3, 4];
  }

  /**
   * The image saver.  `saves` is the trace of save calls made and `notes`
   * the trace of logger calls; `tangentSave` and `fileMode` are the fields
   * `save_image` and `check_animated` set.
   */
  class ImageSaver {
    var outputDirPath: Option<string>
    var tangentSave: bool
    var fileMode: Option<string>
    var saves: seq<SaveCall>
    var notes: seq<Note>

    /** The directory argument is never used: the field is None before it is tested. */
    constructor (outputDirPath: Option<string>)
      ensures this.outputDirPath == None
      ensures saves == [] && notes == []
    {
      this.outputDirPath := None;
      tangentSave := false;
      fileMode := None;
      saves := [];
      notes := [];
      new;
      if Truthy(this.outputDirPath) {
        // the field was set to None just above, so `set_output_dir` is never reached
        assert false;
      }
    }

    /** `set_output_dir`: the path is stored even when the directory cannot be created. */
    method SetOutputDir(outputDirPath: string, mkdirOk: bool)
      modifies this
      ensures this.outputDirPath == Some(outputDirPath)
      ensures saves == old(saves) && tangentSave == old(tangentSave) && fileMode == old(fileMode)
      ensures notes == old(notes) + (if mkdirOk then [] else [Note(OutputDirError, Some("cl"), Some("red"))])
    {
      this.outputDirPath := Some(outputDirPath);
      if !mkdirOk {
        notes := notes + [Note(OutputDirError, Some("cl"), Some("red"))];
      }
    }

    /** `save_image`: `saveOk` is the outcome of the one save call that can be made. */
    method SaveImage(image: Image, fileName: string, saveOk: bool)
      modifies this
      ensures var e := SaveImageEffect(old(outputDirPath), image, fileName, saveOk);
              && outputDirPath == old(outputDirPath)
              && saves == old(saves) + e.saves
              && notes == old(notes) + e.notes
              && tangentSave == e.tangentSave
              && fileMode == e.fileMode
    {
      tangentSave := false;
      fileMode := None;
      if Truthy(outputDirPath) {
        var outputFilePath := PathJoin(outputDirPath.value, fileName);
        if image.mode.None? {
          notes := notes + [Note(ModeNotDiscovered, Some("cl"), Some("red"))];
          return;
        }
        var mode := image.mode.value;
        if mode in PhotoModes {
          fileMode := Some("JPEG");
        } else if mode in PaletteModes {
          fileMode := Some("GIF");
          CheckAnimated(image, fileName, outputFilePath, saveOk);
        } else if mode in ["SVG"] {
          fileMode := Some("SVG");
        } else {
          fileMode := Some("PNG");
        }
        if !tangentSave {
          var path := outputFilePath + "." + fileMode.value;
          saves := saves + [SaveCall(path, fileMode.value, [0], saveOk)];
          if !saveOk {
            notes := notes + [Note(SavingError(fileMode.value), Some("cl"), Some("red"))];
            return;
          }
          notes := notes + [Note(ImageSaved(fileName, fileMode.value), Some("l"), Some("green"))];
        }
      } else {
        notes := notes + [Note(OutputPathUndefined, Some("cl"), Some("yellow"))];
      }
    }

    /**
     * `check_animated`: copy the current frame, then seek to the next one,
     * until a seek raises; keep the frames collected so far and, if there
     * is more than one, save them all as one file.
     */
    method CheckAnimated(image: Image, fileName: string, outputFilePath: string, saveOk: bool)
      requires fileMode.Some?
      modifies this
      ensures outputDirPath == old(outputDirPath) && fileMode == old(fileMode)
      ensures var n := FrameCount(image);
              var format := fileMode.value;
              var path := outputFilePath + "." + format;
              var probeNotes := if SeekTo(image, n) == Fault then [Note(ProcessingError(format), Some("cl"), Some("red"))] else [];
              && tangentSave == (n > 1)
              && saves == old(saves) + (if n > 1 then [SaveCall(path, format, Frames(n), saveOk)] else [])
              && notes == old(notes) + probeNotes
                          + (if n <= 1 then []
                             else if saveOk then [Note(ImageSaved(fileName, format), Some("cl"), Some("green"))]
                             else [Note(SavingError(format), Some("cl"), Some("red"))])
    {
      var frames: seq<nat> := [];
      var probing := true;
      var stop := EndOfFile;
      while probing
        invariant probing ==> |frames| <= LeadingMoves(image.seeks)
        invariant !probing ==> |frames| == FrameCount(image) && stop == SeekTo(image, |frames|)
        invariant frames == Frames(|frames|)
        invariant unchanged(this)
        decreases |image.seeks| + 1 - |frames|, probing
      {
        FramesSnoc(|frames|);
        frames := frames + [|frames|];
        var outcome := SeekTo(image, |frames|);
        if outcome != Moved {
          probing := false;
          stop := outcome;
        }
      }
      if stop == Fault {
        notes := notes + [Note(ProcessingError(fileMode.value), Some("cl"), Some("red"))];
      }
      if |frames| > 1 {
        tangentSave := true;
        saves := saves + [SaveCall(outputFilePath + "." + fileMode.value, fileMode.value, frames, saveOk)];
        if saveOk {
          notes := notes + [Note(ImageSaved(fileName, fileMode.value), Some("cl"), Some("green"))];
        } else {
          notes := notes + [Note(SavingError(fileMode.value), Some("cl"), Some("red"))];
        }
      } else {
        tangentSave := false;
      }
    }
  }
}
