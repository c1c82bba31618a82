/** The RAFT-Stereo method's own logic: the table of downloadable checkpoints,
    the two enumeration parameters, the parse of the "WxH" shape string, the
    checkpoint file name, the device choice, and loading a checkpoint with a
    download only when the file is not cached on disk. The network itself and
    its tensors are not modelled. */
module Raft {
  import opened Common
  import opened Text
  import opened Methods

  /** The directory of the release every checkpoint is downloaded from. */
  const ReleaseDir := "https://github.com/nburrus/stereodemo/releases/download/v0.1-raft-stereo/models/"

  /** `urls`: checkpoint file name to download address. */
  const Urls: map<string, string> := map[
    "raft-stereo-eth3d-cpu-128x160.scripted.pt" := ReleaseDir + "raft-stereo-eth3d-cpu-128x160.scripted.pt",
    "raft-stereo-eth3d-cpu-256x320.scripted.pt" := ReleaseDir + "raft-stereo-eth3d-cpu-256x320.scripted.pt",
    "raft-stereo-eth3d-cpu-480x640.scripted.pt" := ReleaseDir + "raft-stereo-eth3d-cpu-480x640.scripted.pt",
    "raft-stereo-eth3d-cpu-736x1280.scripted.pt" := ReleaseDir + "raft-stereo-eth3d-cpu-736x1280.scripted.pt",
    "raft-stereo-eth3d-cuda-128x160.scripted.pt" := ReleaseDir + "raft-stereo-eth3d-cuda-128x160.scripted.pt",
    "raft-stereo-eth3d-cuda-256x320.scripted.pt" := ReleaseDir + "raft-stereo-eth3d-cuda-256x320.scripted.pt",
    "raft-stereo-eth3d-cuda-480x640.scripted.pt" := ReleaseDir + "raft-stereo-eth3d-cuda-480x640.scripted.pt",
    "raft-stereo-eth3d-cuda-736x1280.scripted.pt" := ReleaseDir + "raft-stereo-eth3d-cuda-736x1280.scripted.pt",
    "raft-stereo-fast-cpu-128x160.scripted.pt" := ReleaseDir + "raft-stereo-fast-cpu-128x160.scripted.pt",
    "raft-stereo-fast-cpu-256x320.scripted.pt" := ReleaseDir + "raft-stereo-fast-cpu-256x320.scripted.pt",
    "raft-stereo-fast-cpu-480x640.scripted.pt" := ReleaseDir + "raft-stereo-fast-cpu-480x640.scripted.pt",
    "raft-stereo-fast-cpu-736x1280.scripted.pt" := ReleaseDir + "raft-stereo-fast-cpu-736x1280.scripted.pt",
    "raft-stereo-fast-cuda-128x160.scripted.pt" := ReleaseDir + "raft-stereo-fast-cuda-128x160.scripted.pt",
    "raft-stereo-fast-cuda-256x320.scripted.pt" := ReleaseDir + "raft-stereo-fast-cuda-256x320.scripted.pt",
    "raft-stereo-fast-cuda-480x640.scripted.pt" := ReleaseDir + "raft-stereo-fast-cuda-480x640.scripted.pt",
    "raft-stereo-fast-cuda-736x1280.scripted.pt" := ReleaseDir + "raft-stereo-fast-cuda-736x1280.scripted.pt",
    "raft-stereo-middlebury-cuda-128x160.scripted.pt" := ReleaseDir + "raft-stereo-middlebury-cuda-128x160.scripted.pt",
    "raft-stereo-middlebury-cuda-256x320.scripted.pt" := ReleaseDir + "raft-stereo-middlebury-cuda-256x320.scripted.pt",
    "raft-stereo-middlebury-cuda-480x640.scripted.pt" := ReleaseDir + "raft-stereo-middlebury-cuda-480x640.scripted.pt",
    "raft-stereo-middlebury-cuda-736x1280.scripted.pt" := ReleaseDir + "raft-stereo-middlebury-cuda-736x1280.scripted.pt"
  ]

  /** The values of the "Shape" parameter: columns, then rows. */
  const ShapeChoices: seq<string> := ["160x128", "320x256", "640x480", "1280x736"]

  /** The values of the "Model" parameter. */
  const ModelChoices: seq<string> := ["fast-cpu", "middlebury-cpu", "eth3d-cpu", "fast-cuda", "middlebury-cuda", "eth3d-cuda"]

  /** The entries `RaftStereo.reset_defaults` writes. */
  const RaftDefaults: map<string, ParamValue> := map[
    "Shape" := EnumValue("Processed image size", 2, ShapeChoices),
    "Model" := EnumValue("Pre-trained Model", 0, ModelChoices)
  ]

  predicate EndsWith(s: string, suffix: string)
  {
    |suffix| <= |s| && s[|s| - |suffix|..] == suffix
  }

  /** Every address in `urls` ends with "/models/" followed by its key. */
  lemma UrlsNameTheirFile()
    ensures forall k :: k in Urls ==> EndsWith(Urls[k], "/models/" + k)
  {
    var dir := "/models/";
    assert EndsWith(ReleaseDir, dir);
    forall k | k in Urls
      ensures EndsWith(Urls[k], dir + k)
    {
      var u := Urls[k];
      assert u == ReleaseDir + k;
      assert u[|u| - |dir + k|..] == ReleaseDir[|ReleaseDir| - |dir|..] + k;
    }
  }

  lemma DefaultsSound()
    ensures forall k :: k in RaftDefaults ==> SoundDefault(RaftDefaults[k])
  {
  }

  /** The defaults select a 640x480 input and the fast CPU model. */
  lemma DefaultChoices()
    ensures PyIndex(RaftDefaults["Shape"].values, RaftDefaults["Shape"].index) == Ok("640x480")
    ensures PyIndex(RaftDefaults["Model"].values, RaftDefaults["Model"].index) == Ok("fast-cpu")
  {
  }

  /** The "Shape" value is split at every 'x' into columns and rows, and
      both pieces are read as decimal integers: anything but exactly one 'x'
      between two digit strings raises ValueError. */
  function ParseShape(shape: string): (r: Result<(nat, nat)>)
    ensures r.Err? ==> r.error == ValueError
    ensures r.Ok? <==>
      var parts := SplitOn(shape, 'x');
      && |parts| == 2
      && 1 <= |parts[0]| && AllDigits(parts[0])
      && 1 <= |parts[1]| && AllDigits(parts[1])
  {
    var parts := SplitOn(shape, 'x');
    if |parts| != 2 then Err(ValueError)
    else
      match (ParseDecimal(parts[0]), ParseDecimal(parts[1]))
      case (Some(cols), Some(rows)) => Ok((cols, rows))
      case _ => Err(ValueError)
  }

  /** The checkpoint file name: the variant, then the shape with the rows
      first, then the TorchScript extension. */
  function ModelFileName(variant: string, cols: nat, rows: nat): string
  {
    "raft-stereo-" + variant + "-" + DecimalString(rows) + "x" + DecimalString(cols) + ".scripted.pt"
  }

  /** A checkpoint name is the variant's prefix, a shape string that parses
      back to (rows, cols), and the extension. */
  lemma ModelFileNameCarriesShape(variant: string, cols: nat, rows: nat)
    ensures var name := ModelFileName(variant, cols, rows);
            && |name| >= |variant| + 25
            && name[..|variant| + 13] == "raft-stereo-" + variant + "-"
            && name[|name| - 12..] == ".scripted.pt"
            && ParseShape(name[|variant| + 13..|name| - 12]) == Ok((rows, cols))
  {
    var name := ModelFileName(variant, cols, rows);
    var prefix := "raft-stereo-" + variant + "-";
    var shape := DecimalString(rows) + "x" + DecimalString(cols);
    assert name == prefix + shape + ".scripted.pt";
    assert name[|variant| + 13..|name| - 12] == shape;
    ParseFormattedShape(rows, cols);
  }

  /** For one variant, different shapes give different checkpoint names. */
  lemma ModelFileNameInjective(variant: string, cols: nat, rows: nat, cols': nat, rows': nat)
    ensures ModelFileName(variant, cols, rows) == ModelFileName(variant, cols', rows') ==> cols == cols' && rows == rows'
  {
    ModelFileNameCarriesShape(variant, cols, rows);
    ModelFileNameCarriesShape(variant, cols', rows');
  }

  /** The checkpoint file a shape string and a variant lead to. */
  function CheckpointName(shape: string, variant: string): Result<string>
  {
    match ParseShape(shape)
    case Ok((cols, rows)) => Ok(ModelFileName(variant, cols, rows))
    case Err(e) => Err(e)
  }

  /** The checkpoint path `_compute_disparity` builds from the shape and
      model values before it loads anything, or the exception raised first. */
  function CheckpointPath(modelsPath: Path, shape: Result<string>, variant: Result<string>): (r: Result<Path>)
    ensures r.Ok? <==> shape.Ok? && ParseShape(shape.value).Ok? && variant.Ok?
    ensures r.Ok? ==> Parent(r.value) == modelsPath && CheckpointName(shape.value, variant.value) == Ok(Name(r.value))
    ensures shape.Err? ==> r == Err(shape.error)
    ensures shape.Ok? && ParseShape(shape.value).Err? ==> r == Err(ValueError)
    ensures shape.Ok? && ParseShape(shape.value).Ok? && variant.Err? ==> r == Err(variant.error)
  {
    if shape.Err? then Err(shape.error)
    else
      match ParseShape(shape.value)
      case Err(e) => Err(e)
      case Ok((cols, rows)) =>
        if variant.Err? then Err(variant.error)
        else Ok(Join(modelsPath, ModelFileName(variant.value, cols, rows)))
  }

  /** The shape string "AxB" gives `cols == A` and `rows == B`. */
  lemma ParseFormattedShape(cols: nat, rows: nat)
    ensures ParseShape(DecimalString(cols) + "x" + DecimalString(rows)) == Ok((cols, rows))
  {
    var a, b := DecimalString(cols), DecimalString(rows);
    SplitAroundSeparator(a, b, 'x');
    ParseDecimalString(cols);
    ParseDecimalString(rows);
  }

  /** The shape part of the checkpoint name is the shape string with its two
      sides swapped: "AxB" leads to "...-BxA.scripted.pt". */
  lemma CheckpointNameSwapsShape(variant: string, cols: nat, rows: nat)
    ensures var shape := DecimalString(cols) + "x" + DecimalString(rows);
            var parts := SplitOn(shape, 'x');
            && |parts| == 2
            && CheckpointName(shape, variant) == Ok("raft-stereo-" + variant + "-" + parts[1] + "x" + parts[0] + ".scripted.pt")
  {
    ParseFormattedShape(cols, rows);
    SplitAroundSeparator(DecimalString(cols), DecimalString(rows), 'x');
  }

  /** A shape that parses gives the checkpoint name of its two numbers. */
  lemma CheckpointOfParsedShape(shape: string, cols: nat, rows: nat, variant: string)
    requires ParseShape(shape) == Ok((cols, rows))
    ensures CheckpointName(shape, variant) == Ok(ModelFileName(variant, cols, rows))
  {
  }

  /* Facts about the four shape choices, one group per shape: the choice
     parses, the file name it gives each variant, and which of those names
     `urls` has. */

  lemma Parse160x128()
    ensures ParseShape(ShapeChoices[0]) == Ok((160, 128))
  {
    assert ShapeChoices[0] == DecimalString(160) + "x" + DecimalString(128) by {
      assert DecimalString(160) == "160" && DecimalString(128) == "128";
    }
    ParseFormattedShape(160, 128);
  }

  lemma FileName160x128(variant: string)
    ensures ModelFileName(variant, 160, 128) == "raft-stereo-" + variant + "-128x160.scripted.pt"
  {
    assert DecimalString(160) == "160" && DecimalString(128) == "128";
  }

  lemma KeyFastCpu160x128()
    ensures ModelFileName("fast-cpu", 160, 128) == "raft-stereo-fast-cpu-128x160.scripted.pt"
  {
    FileName160x128("fast-cpu");
  }

  lemma KeyMiddleburyCpu160x128()
    ensures ModelFileName("middlebury-cpu", 160, 128) == "raft-stereo-middlebury-cpu-128x160.scripted.pt"
  {
    FileName160x128("middlebury-cpu");
  }

  lemma KeyEth3dCpu160x128()
    ensures ModelFileName("eth3d-cpu", 160, 128) == "raft-stereo-eth3d-cpu-128x160.scripted.pt"
  {
    FileName160x128("eth3d-cpu");
  }

  lemma KeyFastCuda160x128()
    ensures ModelFileName("fast-cuda", 160, 128) == "raft-stereo-fast-cuda-128x160.scripted.pt"
  {
    FileName160x128("fast-cuda");
  }

  lemma KeyMiddleburyCuda160x128()
    ensures ModelFileName("middlebury-cuda", 160, 128) == "raft-stereo-middlebury-cuda-128x160.scripted.pt"
  {
    FileName160x128("middlebury-cuda");
  }

  lemma KeyEth3dCuda160x128()
    ensures ModelFileName("eth3d-cuda", 160, 128) == "raft-stereo-eth3d-cuda-128x160.scripted.pt"
  {
    FileName160x128("eth3d-cuda");
  }

  lemma Urls160x128()
    ensures "raft-stereo-fast-cpu-128x160.scripted.pt" in Urls
    ensures "raft-stereo-middlebury-cpu-128x160.scripted.pt" !in Urls
    ensures "raft-stereo-eth3d-cpu-128x160.scripted.pt" in Urls
    ensures "raft-stereo-fast-cuda-128x160.scripted.pt" in Urls
    ensures "raft-stereo-middlebury-cuda-128x160.scripted.pt" in Urls
    ensures "raft-stereo-eth3d-cuda-128x160.scripted.pt" in Urls
  {
  }

  lemma Hosted160x128()
    ensures forall j :: 0 <= j < |ModelChoices| ==> (ModelFileName(ModelChoices[j], 160, 128) in Urls <==> j != 1)
  {
    Urls160x128();
    forall j | 0 <= j < |ModelChoices|
      ensures ModelFileName(ModelChoices[j], 160, 128) in Urls <==> j != 1
    {
      if j == 0 {
        KeyFastCpu160x128();
      } else if j == 1 {
        KeyMiddleburyCpu160x128();
      } else if j == 2 {
        KeyEth3dCpu160x128();
      } else if j == 3 {
        KeyFastCuda160x128();
      } else if j == 4 {
        KeyMiddleburyCuda160x128();
      } else {
        KeyEth3dCuda160x128();
      }
    }
  }

  lemma Parse320x256()
    ensures ParseShape(ShapeChoices[1]) == Ok((320, 256))
  {
    assert ShapeChoices[1] == DecimalString(320) + "x" + DecimalString(256) by {
      assert DecimalString(320) == "320" && DecimalString(256) == "256";
    }
    ParseFormattedShape(320, 256);
  }

  lemma FileName320x256(variant: string)
    ensures ModelFileName(variant, 320, 256) == "raft-stereo-" + variant + "-256x320.scripted.pt"
  {
    assert DecimalString(320) == "320" && DecimalString(256) == "256";
  }

  lemma KeyFastCpu320x256()
    ensures ModelFileName("fast-cpu", 320, 256) == "raft-stereo-fast-cpu-256x320.scripted.pt"
  {
    FileName320x256("fast-cpu");
  }

  lemma KeyMiddleburyCpu320x256()
    ensures ModelFileName("middlebury-cpu", 320, 256) == "raft-stereo-middlebury-cpu-256x320.scripted.pt"
  {
    FileName320x256("middlebury-cpu");
  }

  lemma KeyEth3dCpu320x256()
    ensures ModelFileName("eth3d-cpu", 320, 256) == "raft-stereo-eth3d-cpu-256x320.scripted.pt"
  {
    FileName320x256("eth3d-cpu");
  }

  lemma KeyFastCuda320x256()
    ensures ModelFileName("fast-cuda", 320, 256) == "raft-stereo-fast-cuda-256x320.scripted.pt"
  {
    FileName320x256("fast-cuda");
  }

  lemma KeyMiddleburyCuda320x256()
    ensures ModelFileName("middlebury-cuda", 320, 256) == "raft-stereo-middlebury-cuda-256x320.scripted.pt"
  {
    FileName320x256("middlebury-cuda");
  }

  lemma KeyEth3dCuda320x256()
    ensures ModelFileName("eth3d-cuda", 320, 256) == "raft-stereo-eth3d-cuda-256x320.scripted.pt"
  {
    FileName320x256("eth3d-cuda");
  }

  lemma Urls320x256()
    ensures "raft-stereo-fast-cpu-256x320.scripted.pt" in Urls
    ensures "raft-stereo-middlebury-cpu-256x320.scripted.pt" !in Urls
    ensures "raft-stereo-eth3d-cpu-256x320.scripted.pt" in Urls
    ensures "raft-stereo-fast-cuda-256x320.scripted.pt" in Urls
    ensures "raft-stereo-middlebury-cuda-256x320.scripted.pt" in Urls
    ensures "raft-stereo-eth3d-cuda-256x320.scripted.pt" in Urls
  {
  }

  lemma Hosted320x256()
    ensures forall j :: 0 <= j < |ModelChoices| ==> (ModelFileName(ModelChoices[j], 320, 256) in Urls <==> j != 1)
  {
    Urls320x256();
    forall j | 0 <= j < |ModelChoices|
      ensures ModelFileName(ModelChoices[j], 320, 256) in Urls <==> j != 1
    {
      if j == 0 {
        KeyFastCpu320x256();
      } else if j == 1 {
        KeyMiddleburyCpu320x256();
      } else if j == 2 {
        KeyEth3dCpu320x256();
      } else if j == 3 {
        KeyFastCuda320x256();
      } else if j == 4 {
        KeyMiddleburyCuda320x256();
      } else {
        KeyEth3dCuda320x256();
      }
    }
  }

  lemma Parse640x480()
    ensures ParseShape(ShapeChoices[2]) == Ok((640, 480))
  {
    assert ShapeChoices[2] == DecimalString(640) + "x" + DecimalString(480) by {
      assert DecimalString(640) == "640" && DecimalString(480) == "480";
    }
    ParseFormattedShape(640, 480);
  }

  lemma FileName640x480(variant: string)
    ensures ModelFileName(variant, 640, 480) == "raft-stereo-" + variant + "-480x640.scripted.pt"
  {
    assert DecimalString(640) == "640" && DecimalString(480) == "480";
  }

  lemma KeyFastCpu640x480()
    ensures ModelFileName("fast-cpu", 640, 480) == "raft-stereo-fast-cpu-480x640.scripted.pt"
  {
    FileName640x480("fast-cpu");
  }

  lemma KeyMiddleburyCpu640x480()
    ensures ModelFileName("middlebury-cpu", 640, 480) == "raft-stereo-middlebury-cpu-480x640.scripted.pt"
  {
    FileName640x480("middlebury-cpu");
  }

  lemma KeyEth3dCpu640x480()
    ensures ModelFileName("eth3d-cpu", 640, 480) == "raft-stereo-eth3d-cpu-480x640.scripted.pt"
  {
    FileName640x480("eth3d-cpu");
  }

  lemma KeyFastCuda640x480()
    ensures ModelFileName("fast-cuda", 640, 480) == "raft-stereo-fast-cuda-480x640.scripted.pt"
  {
    FileName640x480("fast-cuda");
  }

  lemma KeyMiddleburyCuda640x480()
    ensures ModelFileName("middlebury-cuda", 640, 480) == "raft-stereo-middlebury-cuda-480x640.scripted.pt"
  {
    FileName640x480("middlebury-cuda");
  }

  lemma KeyEth3dCuda640x480()
    ensures ModelFileName("eth3d-cuda", 640, 480) == "raft-stereo-eth3d-cuda-480x640.scripted.pt"
  {
    FileName640x480("eth3d-cuda");
  }

  lemma Urls640x480()
    ensures "raft-stereo-fast-cpu-480x640.scripted.pt" in Urls
    ensures "raft-stereo-middlebury-cpu-480x640.scripted.pt" !in Urls
    ensures "raft-stereo-eth3d-cpu-480x640.scripted.pt" in Urls
    ensures "raft-stereo-fast-cuda-480x640.scripted.pt" in Urls
    ensures "raft-stereo-middlebury-cuda-480x640.scripted.pt" in Urls
    ensures "raft-stereo-eth3d-cuda-480x640.scripted.pt" in Urls
  {
  }

  lemma Hosted640x480()
    ensures forall j :: 0 <= j < |ModelChoices| ==> (ModelFileName(ModelChoices[j], 640, 480) in Urls <==> j != 1)
  {
    Urls640x480();
    forall j | 0 <= j < |ModelChoices|
      ensures ModelFileName(ModelChoices[j], 640, 480) in Urls <==> j != 1
    {
      if j == 0 {
        KeyFastCpu640x480();
      } else if j == 1 {
        KeyMiddleburyCpu640x480();
      } else if j == 2 {
        KeyEth3dCpu640x480();
      } else if j == 3 {
        KeyFastCuda640x480();
      } else if j == 4 {
        KeyMiddleburyCuda640x480();
      } else {
        KeyEth3dCuda640x480();
      }
    }
  }

  lemma Parse1280x736()
    ensures ParseShape(ShapeChoices[3]) == Ok((1280, 736))
  {
    assert ShapeChoices[3] == DecimalString(1280) + "x" + DecimalString(736) by {
      assert DecimalString(1280) == "1280" && DecimalString(736) == "736";
    }
    ParseFormattedShape(1280, 736);
  }

  lemma FileName1280x736(variant: string)
    ensures ModelFileName(variant, 1280, 736) == "raft-stereo-" + variant + "-736x1280.scripted.pt"
  {
    assert DecimalString(1280) == "1280" && DecimalString(736) == "736";
  }

  lemma KeyFastCpu1280x736()
    ensures ModelFileName("fast-cpu", 1280, 736) == "raft-stereo-fast-cpu-736x1280.scripted.pt"
  {
    FileName1280x736("fast-cpu");
  }

  lemma KeyMiddleburyCpu1280x736()
    ensures ModelFileName("middlebury-cpu", 1280, 736) == "raft-stereo-middlebury-cpu-736x1280.scripted.pt"
  {
    FileName1280x736("middlebury-cpu");
  }

  lemma KeyEth3dCpu1280x736()
    ensures ModelFileName("eth3d-cpu", 1280, 736) == "raft-stereo-eth3d-cpu-736x1280.scripted.pt"
  {
    FileName1280x736("eth3d-cpu");
  }

  lemma KeyFastCuda1280x736()
    ensures ModelFileName("fast-cuda", 1280, 736) == "raft-stereo-fast-cuda-736x1280.scripted.pt"
  {
    FileName1280x736("fast-cuda");
  }

  lemma KeyMiddleburyCuda1280x736()
    ensures ModelFileName("middlebury-cuda", 1280, 736) == "raft-stereo-middlebury-cuda-736x1280.scripted.pt"
  {
    FileName1280x736("middlebury-cuda");
  }

  lemma KeyEth3dCuda1280x736()
    ensures ModelFileName("eth3d-cuda", 1280, 736) == "raft-stereo-eth3d-cuda-736x1280.scripted.pt"
  {
    FileName1280x736("eth3d-cuda");
  }

  lemma Urls1280x736()
    ensures "raft-stereo-fast-cpu-736x1280.scripted.pt" in Urls
    ensures "raft-stereo-middlebury-cpu-736x1280.scripted.pt" !in Urls
    ensures "raft-stereo-eth3d-cpu-736x1280.scripted.pt" in Urls
    ensures "raft-stereo-fast-cuda-736x1280.scripted.pt" in Urls
    ensures "raft-stereo-middlebury-cuda-736x1280.scripted.pt" in Urls
    ensures "raft-stereo-eth3d-cuda-736x1280.scripted.pt" in Urls
  {
  }

  lemma Hosted1280x736()
    ensures forall j :: 0 <= j < |ModelChoices| ==> (ModelFileName(ModelChoices[j], 1280, 736) in Urls <==> j != 1)
  {
    Urls1280x736();
    forall j | 0 <= j < |ModelChoices|
      ensures ModelFileName(ModelChoices[j], 1280, 736) in Urls <==> j != 1
    {
      if j == 0 {
        KeyFastCpu1280x736();
      } else if j == 1 {
        KeyMiddleburyCpu1280x736();
      } else if j == 2 {
        KeyEth3dCpu1280x736();
      } else if j == 3 {
        KeyFastCuda1280x736();
      } else if j == 4 {
        KeyMiddleburyCuda1280x736();
      } else {
        KeyEth3dCuda1280x736();
      }
    }
  }

  /** Every shape choice parses, and its checkpoint has an address for every
      model choice except "middlebury-cpu" (index 1), whose checkpoints have
      none. */
  lemma CheckpointCoverage(i: nat)
    requires i < |ShapeChoices|
    ensures forall j :: 0 <= j < |ModelChoices| ==>
      && CheckpointName(ShapeChoices[i], ModelChoices[j]).Ok?
      && (CheckpointName(ShapeChoices[i], ModelChoices[j]).value in Urls <==> j != 1)
  {
    var cols: nat, rows: nat;
    if i == 0 {
      Parse160x128();
      Hosted160x128();
      cols, rows := 160, 128;
    } else if i == 1 {
      Parse320x256();
      Hosted320x256();
      cols, rows := 320, 256;
    } else if i == 2 {
      Parse640x480();
      Hosted640x480();
      cols, rows := 640, 480;
    } else {
      Parse1280x736();
      Hosted1280x736();
      cols, rows := 1280, 736;
    }
    forall j | 0 <= j < |ModelChoices|
      ensures CheckpointName(ShapeChoices[i], ModelChoices[j]) == Ok(ModelFileName(ModelChoices[j], cols, rows))
    {
      CheckpointOfParsedShape(ShapeChoices[i], cols, rows, ModelChoices[j]);
    }
  }

  /** Index 1 is the only "middlebury-cpu" among the model choices. */
  lemma MiddleburyCpuChoice()
    ensures forall j :: 0 <= j < |ModelChoices| ==> (ModelChoices[j] == "middlebury-cpu" <==> j == 1)
  {
  }

  datatype Device = Cpu | Cuda

  /** The device the network runs on: CUDA when "cuda" occurs in the variant
      name, the CPU otherwise. */
  function DeviceFor(variant: string): (d: Device)
    ensures d == Cuda <==> exists k :: OccursAt(variant, "cuda", k)
  {
    ContainsSpec(variant, "cuda");
    if Contains(variant, "cuda") then Cuda else Cpu
  }

  lemma CpuVariantsWithoutCuda()
    ensures !Contains("fast-cpu", "cuda")
    ensures !Contains("middlebury-cpu", "cuda")
    ensures !Contains("eth3d-cpu", "cuda")
  {
    assert !ContainsFrom("middlebury-cpu", "cuda", 5);
  }

  /** The first three model choices run on the CPU, the last three on CUDA. */
  lemma ModelChoiceDevices()
    ensures forall j :: 0 <= j < |ModelChoices| ==> (DeviceFor(ModelChoices[j]) == Cuda <==> j >= 3)
  {
    CpuVariantsWithoutCuda();
    assert OccursAt("fast-cuda", "cuda", 5);
    assert OccursAt("middlebury-cuda", "cuda", 11);
    assert OccursAt("eth3d-cuda", "cuda", 6);
  }

  /** The RAFT-Stereo method: its parameters, the input size it resizes to,
      and the checkpoint it last loaded. */
  class RaftStereo {
    const name: string
    const description: string
    /** `models_path`, the cache directory next to the package. */
    const modelsPath: Path
    var parameters: map<string, ParamRef>
    /** `target_size`, (cols, rows); unset until the first computation. */
    var targetSize: Option<(nat, nat)>
    /** `net`, given by the checkpoint it was loaded from. */
    var net: Option<Path>
    var loadedModelPath: Option<Path>

    ghost predicate Valid()
      reads this
    {
      Shaped(parameters, RaftDefaults)
    }

    constructor (modelsPath: Path)
      ensures Valid()
      ensures name == "RAFT-Stereo"
      ensures description == "RAFT-Stereo: Multilevel Recurrent Field Transforms for Stereo Matching (3DV 2021)."
      ensures this.modelsPath == modelsPath
      ensures ValuesOf(parameters) == RaftDefaults
      ensures forall k :: k in RaftDefaults ==> fresh(RefObject(parameters[k]))
      ensures SeparateRecords(parameters)
      ensures targetSize == None && net == None && loadedModelPath == None
    {
      name := "RAFT-Stereo";
      description := "RAFT-Stereo: Multilevel Recurrent Field Transforms for Stereo Matching (3DV 2021).";
      this.modelsPath := modelsPath;
      parameters := map[];
      targetSize := None;
      net := None;
      loadedModelPath := None;
      new;
      ResetDefaults();
    }

    /** `reset_defaults`. */
    method ResetDefaults()
      modifies this`parameters
      ensures Valid()
      ensures parameters.Keys == old(parameters.Keys) + RaftDefaults.Keys
      ensures forall k :: k in RaftDefaults ==> fresh(RefObject(parameters[k]))
      ensures ValuesOf(parameters) == old(ValuesOf(parameters)) + RaftDefaults
      ensures forall k :: k in old(parameters) && k !in RaftDefaults ==> parameters[k] == old(parameters)[k]
      ensures SeparateRecords(old(parameters)) ==> SeparateRecords(parameters)
    {
      parameters := UpdateWithFresh(parameters, RaftDefaults);
    }

    /** `_load_model`: download the checkpoint only when it is not on disk,
        then load it. A missing checkpoint without an address raises KeyError
        before anything changes. On success the result is the address that
        was downloaded, or None when the file was already cached. */
    method LoadModel(modelPath: Path, fs: FileSystem) returns (r: Result<Option<string>>)
      modifies this`loadedModelPath, this`net, fs`files
      ensures old(modelPath in fs.files) ==> r == Ok(None) && fs.files == old(fs.files)
      ensures !old(modelPath in fs.files) && Name(modelPath) in Urls ==>
                r == Ok(Some(Urls[Name(modelPath)])) && fs.files == old(fs.files) + {modelPath}
      ensures !old(modelPath in fs.files) && Name(modelPath) !in Urls ==>
                && r == Err(KeyError(Name(modelPath)))
                && fs.files == old(fs.files)
                && net == old(net) && loadedModelPath == old(loadedModelPath)
      ensures r.Ok? ==> modelPath in fs.files && loadedModelPath == Some(modelPath) && net == Some(modelPath)
    {
      var downloaded := None;
      if modelPath !in fs.files {
        var key := Name(modelPath);
        if key !in Urls {
          return Err(KeyError(key));
        }
        downloaded := Some(Urls[key]);
        fs.files := fs.files + {modelPath};
      }
      loadedModelPath := Some(modelPath);
      net := Some(modelPath);
      r := Ok(downloaded);
    }

    /** The model preparation of `_compute_disparity`: read and parse the
        shape, record the target size, build the checkpoint path from the
        variant, load it, and pick the device. Each step's failure ends the computation with the
        exception it raises. */
    method PrepareModel(fs: FileSystem) returns (r: Result<Device>)
      requires Valid()
      modifies this`targetSize, this`loadedModelPath, this`net, fs`files
      ensures var shape := parameters["Shape"].enumParam.Value();
              targetSize == if shape.Ok? && ParseShape(shape.value).Ok? then Some(ParseShape(shape.value).value)
                            else old(targetSize)
      ensures var planned := CheckpointPath(modelsPath, parameters["Shape"].enumParam.Value(),
                                            parameters["Model"].enumParam.Value());
              planned.Err? ==>
                && r == Err(planned.error)
                && fs.files == old(fs.files) && net == old(net) && loadedModelPath == old(loadedModelPath)
      ensures var variant := parameters["Model"].enumParam.Value();
              var planned := CheckpointPath(modelsPath, parameters["Shape"].enumParam.Value(), variant);
              planned.Ok? ==>
                var path := planned.value;
                && (r.Ok? <==> old(path in fs.files) || Name(path) in Urls)
                && (r.Ok? ==> && r.value == DeviceFor(variant.value)
                              && fs.files == old(fs.files) + {path}
                              && loadedModelPath == Some(path) && net == Some(path))
                && (r.Err? ==> && r == Err(KeyError(Name(path)))
                               && fs.files == old(fs.files) && net == old(net) && loadedModelPath == old(loadedModelPath))
    {
      var shapeRecord := parameters["Shape"].enumParam;
      var shape := shapeRecord.Value();
      if shape.Err? {
        return Err(shape.error);
      }
      var parsed := ParseShape(shape.value);
      if parsed.Err? {
        return Err(parsed.error);
      }
      var (cols, rows) := parsed.value;
      targetSize := Some((cols, rows));
      var modelRecord := parameters["Model"].enumParam;
      var variant := modelRecord.Value();
      if variant.Err? {
        return Err(variant.error);
      }
      var modelPath := Join(modelsPath, ModelFileName(variant.value, cols, rows));
      var loaded := LoadModel(modelPath, fs);
      if loaded.Err? {
        return Err(loaded.error);
      }
      r := Ok(DeviceFor(variant.value));
    }
  }

  /** With "middlebury-cpu" selected, every shape choice leads to a
      checkpoint without an address: unless that file is already cached,
      preparing the model raises KeyError on its name. */
  lemma MiddleburyCpuHasNoCheckpoint(modelsPath: Path, i: nat)
    requires i < |ShapeChoices|
    ensures var planned := CheckpointPath(modelsPath, Ok(ShapeChoices[i]), Ok(ModelChoices[1]));
            planned.Ok? && Name(planned.value) !in Urls && Parent(planned.value) == modelsPath
  {
    CheckpointCoverage(i);
  }

  /** Every other model choice, with every shape choice, leads to a
      checkpoint that has an address. */
  lemma OtherChoicesHaveCheckpoints(modelsPath: Path, i: nat, j: nat)
    requires i < |ShapeChoices| && j < |ModelChoices| && j != 1
    ensures var planned := CheckpointPath(modelsPath, Ok(ShapeChoices[i]), Ok(ModelChoices[j]));
            planned.Ok? && Name(planned.value) in Urls && Parent(planned.value) == modelsPath
  {
    CheckpointCoverage(i);
  }

  /** The default choices lead to the 480x640 fast CPU checkpoint, which has
      an address, on the CPU. */
  lemma DefaultCheckpoint(modelsPath: Path)
    ensures var planned := CheckpointPath(modelsPath, Ok(ShapeChoices[2]), Ok(ModelChoices[0]));
            && planned == Ok(Join(modelsPath, "raft-stereo-fast-cpu-480x640.scripted.pt"))
            && Name(planned.value) in Urls
            && DeviceFor(ModelChoices[0]) == Cpu
  {
    Parse640x480();
    KeyFastCpu640x480();
    Urls640x480();
    CpuVariantsWithoutCuda();
  }
}
