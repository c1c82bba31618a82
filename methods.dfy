/** The parameter layer of the block-matching methods: the validators that
    round a user's value to one OpenCV accepts, the mutable integer and
    enumeration parameters, the parameter tables the two OpenCV methods reset
    to, and the odd-block-size fix-up made before a block matcher is created. */
module Methods {
  import opened Common

  /** `odd_only`: an odd value is kept, an even one is moved up by one. */
  function OddOnly(x: int): (r: int)
    ensures r % 2 == 1
    ensures x <= r <= x + 1
    ensures r == x <==> x % 2 == 1
  {
    if x % 2 == 1 then x else x + 1
  }

  /** `multiple_of_16`: round down to a multiple of 16, but never below 16.
      Python's `//` by 16 floors, as Dafny's `/` by a positive divisor does. */
  function MultipleOf16(x: int): (r: int)
    ensures r % 16 == 0
    ensures r >= 16
    ensures x >= 16 ==> r <= x < r + 16
    ensures x < 32 ==> r == 16
  {
    var down := x / 16 * 16;
    if 16 >= down then 16 else down
  }

  /** The `to_valid` hook of an integer parameter: the default (accept the
      value as it is) or one of the two rounding validators. */
  datatype Validator = AcceptAnything | OddOnlyRule | MultipleOf16Rule

  /** Run a validator on a value: the default keeps it, the rounding rules
      move it to the nearest accepted value above (odd) or below (a multiple
      of 16, at least 16). */
  function Apply(v: Validator, x: int): (r: int)
    ensures v == AcceptAnything ==> r == x
    ensures v == OddOnlyRule ==> r % 2 == 1 && x <= r <= x + 1
    ensures v == MultipleOf16Rule ==>
      && r % 16 == 0 && r >= 16
      && (x >= 16 ==> r <= x < r + 16)
      && (x < 32 ==> r == 16)
  {
    match v
    case AcceptAnything => x
    case OddOnlyRule => OddOnly(x)
    case MultipleOf16Rule => MultipleOf16(x)
  }

  /** Rounding twice is rounding once. */
  lemma ValidatorIdempotent(v: Validator, x: int)
    ensures Apply(v, Apply(v, x)) == Apply(v, x)
  {
  }

  /** The validator's rounding cannot leave `[min, max]`: an odd maximum for
      `odd_only`, a minimum that is a multiple of 16 (or at most 16) and a
      maximum of at least 16 for `multiple_of_16`. */
  predicate RangeClosed(v: Validator, min: int, max: int)
  {
    match v
    case AcceptAnything => true
    case OddOnlyRule => max % 2 == 1
    case MultipleOf16Rule => (min <= 16 || min % 16 == 0) && 16 <= max
  }

  lemma ValidatorKeepsRange(v: Validator, min: int, max: int, x: int)
    requires RangeClosed(v, min, max)
    requires min <= x <= max
    ensures min <= Apply(v, x) <= max
  {
    if v == MultipleOf16Rule && x >= 16 && min > 16 {
      var r := MultipleOf16(x);
      assert min / 16 <= x / 16;
      assert r == x / 16 * 16;
      assert min == min / 16 * 16;
    }
  }

  /** The validators round; they do not clamp to the parameter's range. */
  lemma ValidatorsDoNotClamp()
    ensures Apply(AcceptAnything, 1000) == 1000
    ensures Apply(OddOnlyRule, 64) == 65
    ensures Apply(MultipleOf16Rule, 300) == 288
  {
  }

  /** A snapshot of one parameter record's fields. */
  datatype ParamValue =
    | IntValue(description: string, value: int, min: int, max: int, toValid: Validator)
    | EnumValue(description: string, index: int, values: seq<string>)

  /** What a default entry promises: an integer default lies in its range, is
      left alone by its validator, and the validator keeps the range closed;
      an enumeration default names one of its values. */
  predicate SoundDefault(p: ParamValue)
  {
    match p
    case IntValue(_, value, min, max, toValid) =>
      min <= value <= max && Apply(toValid, value) == value && RangeClosed(toValid, min, max)
    case EnumValue(_, index, values) => 0 <= index < |values|
  }

  /** `IntParameter`: a mutable integer knob. */
  class IntParameter {
    var description: string
    var value: int
    var min: int
    var max: int
    var toValid: Validator

    constructor (description: string, value: int, min: int, max: int, toValid: Validator := AcceptAnything)
      ensures Snapshot() == IntValue(description, value, min, max, toValid)
    {
      this.description := description;
      this.value := value;
      this.min := min;
      this.max := max;
      this.toValid := toValid;
    }

    function Snapshot(): ParamValue
      reads this
    {
      IntValue(description, value, min, max, toValid)
    }

    /** `set_value`: store the validated value, without clamping it. */
    method SetValue(x: int)
      modifies this`value
      ensures value == Apply(toValid, x)
      ensures description == old(description) && min == old(min) && max == old(max) && toValid == old(toValid)
      ensures RangeClosed(toValid, min, max) && min <= x <= max ==> min <= value <= max
    {
      value := Apply(toValid, x);
      if RangeClosed(toValid, min, max) && min <= x <= max {
        ValidatorKeepsRange(toValid, min, max, x);
      }
    }
  }

  /** `EnumParameter`: a choice among named values, kept as an index. */
  class EnumParameter {
    var description: string
    var index: int
    var values: seq<string>

    constructor (description: string, index: int, values: seq<string>)
      ensures Snapshot() == EnumValue(description, index, values)
    {
      this.description := description;
      this.index := index;
      this.values := values;
    }

    function Snapshot(): ParamValue
      reads this
    {
      EnumValue(description, index, values)
    }

    /** `set_index`: any index is stored, even one out of range. */
    method SetIndex(idx: int)
      modifies this`index
      ensures index == idx
      ensures description == old(description) && values == old(values)
    {
      index := idx;
    }

    /** The `value` property: `values[index]`, with Python's indexing. */
    function Value(): (r: Result<string>)
      reads this
      ensures 0 <= index < |values| ==> r == Ok(values[index])
      ensures r.Ok? <==> -|values| <= index < |values|
      ensures r.Err? ==> r.error == IndexError
    {
      PyIndex(values, index)
    }
  }

  /** An entry of a method's `parameters` dictionary. */
  datatype ParamRef = IntRef(intParam: IntParameter) | EnumRef(enumParam: EnumParameter)

  function RefObject(r: ParamRef): object
  {
    match r
    case IntRef(p) => p
    case EnumRef(e) => e
  }

  function ReadRef(r: ParamRef): ParamValue
    reads RefObject(r)
  {
    match r
    case IntRef(p) => p.Snapshot()
    case EnumRef(e) => e.Snapshot()
  }

  /** The parameter records a dictionary refers to. */
  function Objects(ps: map<string, ParamRef>): set<object>
  {
    set k | k in ps :: RefObject(ps[k])
  }

  /** The current field values of every record in a dictionary. */
  function ValuesOf(ps: map<string, ParamRef>): map<string, ParamValue>
    reads Objects(ps)
  {
    map k | k in ps :: ReadRef(ps[k])
  }

  /** Every key of `table` is in `ps`, holding a record of the same kind. */
  predicate Shaped(ps: map<string, ParamRef>, table: map<string, ParamValue>)
  {
    forall k :: k in table ==> k in ps && (ps[k].IntRef? <==> table[k].IntValue?)
  }

  /** No two keys of a dictionary share a record. */
  predicate SeparateRecords(ps: map<string, ParamRef>)
  {
    forall k1, k2 :: k1 in ps && k2 in ps && k1 != k2 ==> RefObject(ps[k1]) != RefObject(ps[k2])
  }

  /** A fresh record holding the fields of `p`. */
  method NewRecord(p: ParamValue) returns (r: ParamRef)
    ensures fresh(RefObject(r))
    ensures ReadRef(r) == p
    ensures r.IntRef? <==> p.IntValue?
  {
    match p
    case IntValue(description, value, min, max, toValid) =>
      var q := new IntParameter(description, value, min, max, toValid);
      r := IntRef(q);
    case EnumValue(description, index, values) =>
      var e := new EnumParameter(description, index, values);
      r := EnumRef(e);
  }

  /** Fresh records for every entry of a table: the records a dictionary
      literal of `IntParameter(...)`/`EnumParameter(...)` calls allocates. */
  method NewRecords(table: map<string, ParamValue>) returns (entries: map<string, ParamRef>)
    ensures entries.Keys == table.Keys
    ensures forall k :: k in entries ==> fresh(RefObject(entries[k]))
    ensures forall k :: k in entries ==> ReadRef(entries[k]) == table[k]
    ensures Shaped(entries, table)
    ensures SeparateRecords(entries)
  {
    entries := map[];
    var todo := table.Keys;
    while todo != {}
      invariant todo <= table.Keys
      invariant entries.Keys == table.Keys - todo
      invariant forall k :: k in entries ==> fresh(RefObject(entries[k]))
      invariant forall k :: k in entries ==> ReadRef(entries[k]) == table[k]
      invariant forall k :: k in entries ==> (entries[k].IntRef? <==> table[k].IntValue?)
      invariant SeparateRecords(entries)
      decreases todo
    {
      var k :| k in todo;
      var r := NewRecord(table[k]);
      entries := entries[k := r];
      todo := todo - {k};
    }
  }

  /** `parameters.update(entries)`: the updated keys take the values of the
      entries' records, every other key keeps the values it had. */
  lemma UpdatedValues(ps: map<string, ParamRef>, entries: map<string, ParamRef>, table: map<string, ParamValue>)
    requires entries.Keys == table.Keys
    requires forall k :: k in entries ==> ReadRef(entries[k]) == table[k]
    ensures ValuesOf(ps + entries) == ValuesOf(ps) + table
  {
  }

  /** `ps.update({...})` with a dictionary literal of fresh records whose
      fields are the entries of `table`. */
  method UpdateWithFresh(ps: map<string, ParamRef>, table: map<string, ParamValue>)
    returns (updated: map<string, ParamRef>)
    ensures updated.Keys == ps.Keys + table.Keys
    ensures Shaped(updated, table)
    ensures forall k :: k in table ==> fresh(RefObject(updated[k]))
    ensures forall k :: k in ps && k !in table ==> updated[k] == ps[k]
    ensures ValuesOf(updated) == old(ValuesOf(ps)) + table
    ensures SeparateRecords(ps) ==> SeparateRecords(updated)
  {
    ghost var before := ValuesOf(ps);
    var entries := NewRecords(table);
    assert ValuesOf(ps) == before;
    UpdatedValues(ps, entries, table);
    updated := ps + entries;
  }

  /** `nchannels` in the SGBM penalty defaults. */
  const NChannels := 1

  /** The entries `StereoBMMethod.reset_defaults` writes. */
  const BMDefaults: map<string, ParamValue> := map[
    "Num Disparities" := IntValue("Number of disparities (pixels)", 64, 16, 256, MultipleOf16Rule),
    "Block Size" := IntValue("Kernel size for block matching (odd)", 9, 3, 63, OddOnlyRule),
    "TextureThreshold" := IntValue("Minimum SAD to consider the texture sufficient", 10, 0, 100, AcceptAnything),
    "Uniqueness Ratio" := IntValue("How unique the match each for each pixel", 15, 0, 100, AcceptAnything),
    "SpeckleWindowSize" := IntValue("Speckle window size in pixels (filter small objects). 0 to disable.", 100, 0, 1000, AcceptAnything),
    "SpeckleRange" := IntValue("Speckle range (max diff within a window)", 32, 0, 64, AcceptAnything),
    "Disp12MaxDiff" := IntValue("Maximum allowable difference in the right-left check", 1, 0, 64, AcceptAnything),
    "PreFilterCap" := IntValue("Max pre-filter output", 31, 1, 63, AcceptAnything),
    "PreFilterSize" := IntValue("Pre-filter size (odd)", 9, 5, 255, OddOnlyRule)
  ]

  /** The entries `StereoSGBMMethod.reset_defaults` writes. */
  const SGBMDefaults: map<string, ParamValue> := map[
    "Num Disparities" := IntValue("Number of disparities (pixels)", 64, 2, 256, AcceptAnything),
    "Block Size" := IntValue("Kernel size for block matching (odd)", 3, 3, 63, OddOnlyRule),
    "Mode" := EnumValue("Set it to StereoSGBM::MODE_HH to run the full-scale two-pass dynamic programming algorithm. It will consume O(W*H*numDisparities) bytes, which is large for 640x480 stereo and huge for HD-size pictures. By default, it is set to false .",
                        0, ["MODE_SGBM", "MODE_HH", "MODE_SGBM_3WAY", "MODE_HH4"]),
    "P1" := IntValue("Penalty Cost (default=8*NChannels*BlockSize)", 8 * NChannels * 3 * 3, 0, 2000, AcceptAnything),
    "P2" := IntValue("Penalty Cost. Must be > P1 (default=32*NChannels*BlockSize).", 32 * NChannels * 3 * 3, 0, 2000, AcceptAnything),
    "Uniqueness Ratio" := IntValue("How unique the match each for each pixel", 10, 0, 100, AcceptAnything),
    "SpeckleWindowSize" := IntValue("Speckle window size in pixels (filter small objects). 0 to disable.", 100, 0, 1000, AcceptAnything),
    "SpeckleRange" := IntValue("Speckle range (max diff within a window)", 32, 0, 64, AcceptAnything),
    "Disp12MaxDiff" := IntValue("Maximum allowable difference in the right-left check", 1, 0, 64, AcceptAnything),
    "PreFilterCap" := IntValue("Max pre-filter output", 63, 1, 128, AcceptAnything)
  ]

  lemma BMDefaultsSound()
    ensures forall k :: k in BMDefaults ==> SoundDefault(BMDefaults[k])
  {
  }

  lemma SGBMDefaultsSound()
    ensures forall k :: k in SGBMDefaults ==> SoundDefault(SGBMDefaults[k])
  {
  }

  /** The SGBM penalties default to 8 and 32 times a single-channel 3x3
      block, so P2 > P1 as the P2 description demands. */
  lemma SGBMPenaltiesOrdered()
    ensures SGBMDefaults["P1"].value == 72
    ensures SGBMDefaults["P2"].value == 288
    ensures SGBMDefaults["P2"].value > SGBMDefaults["P1"].value
  {
  }

  /** A stereo method with its parameter dictionary. The two block-matching
      methods share their parameter handling and differ in their name,
      description and the table of defaults their `reset_defaults` writes,
      which one class carries as constants. Their disparity computations also
      differ; of those only BM's block-size fix-up is modelled, by
      `MatcherBlockSize`, which requires the BM table. */
  class StereoMethod {
    const name: string
    const description: string
    const defaults: map<string, ParamValue>
    var parameters: map<string, ParamRef>

    ghost predicate Valid()
      reads this
    {
      Shaped(parameters, defaults)
    }

    /** `StereoBMMethod()`. */
    constructor BM()
      ensures Valid()
      ensures name == "OpenCV BM" && description == "OpenCV Simple Block Matching"
      ensures defaults == BMDefaults
      ensures ValuesOf(parameters) == BMDefaults
      ensures SeparateRecords(parameters)
    {
      name := "OpenCV BM";
      description := "OpenCV Simple Block Matching";
      defaults := BMDefaults;
      parameters := map[];
      new;
      ResetDefaults();
    }

    /** `StereoSGBMMethod()`. */
    constructor SGBM()
      ensures Valid()
      ensures name == "OpenCV SGBM" && description == "OpenCV Semi-Global Block Matching"
      ensures defaults == SGBMDefaults
      ensures ValuesOf(parameters) == SGBMDefaults
      ensures SeparateRecords(parameters)
    {
      name := "OpenCV SGBM";
      description := "OpenCV Semi-Global Block Matching";
      defaults := SGBMDefaults;
      parameters := map[];
      new;
      ResetDefaults();
    }

    /** `reset_defaults`: write fresh default records over the table's keys;
        keys outside the table keep their records. */
    method ResetDefaults()
      modifies this`parameters
      ensures Valid()
      ensures parameters.Keys == old(parameters.Keys) + defaults.Keys
      ensures forall k :: k in defaults ==> fresh(RefObject(parameters[k]))
      ensures ValuesOf(parameters) == old(ValuesOf(parameters)) + defaults
      ensures forall k :: k in old(parameters) && k !in defaults ==> parameters[k] == old(parameters)[k]
      ensures SeparateRecords(old(parameters)) ==> SeparateRecords(parameters)
    {
      parameters := UpdateWithFresh(parameters, defaults);
    }

    /** The block size `StereoBMMethod.compute_disparity` hands to the block
        matcher: the stored one, made odd by adding one if it is even. */
    method MatcherBlockSize() returns (blockSize: int)
      requires Valid()
      requires defaults == BMDefaults
      ensures blockSize % 2 == 1
      ensures blockSize == OddOnly(parameters["Block Size"].intParam.value)
    {
      blockSize := parameters["Block Size"].intParam.value;
      if blockSize % 2 == 0 {
        blockSize := blockSize + 1;
      }
    }
  }
}
