/**
 * Validation of a node's `driver_info` for the PXE driver
 * (`_parse_driver_info`): the required keys, the integer size fields, the
 * ephemeral-partition format rule and the strict `preserve_ephemeral` flag.
 */
module DriverInfo {
  import opened Wrappers
  import opened PyValues
  import opened Exceptions

  /** The validated driver info. Sizes keep the raw values, as the driver does. */
  datatype Info = Info(
    imageSource: Value,
    deployKernel: Value,
    deployRamdisk: Value,
    rootGb: Value,
    deployKey: Value,
    swapMb: Value,
    ephemeralGb: Value,
    ephemeralFormat: Value,
    preserveEphemeral: bool)

  /** `d.get(key, default)` */
  function Get(d: map<string, Value>, key: string, default: Value): Value {
    if key in d then d[key] else default
  }

  /** The labels whose `pxe_`-prefixed keys must be present and non-empty. */
  const RequiredLabels: seq<string> := ["image_source", "deploy_kernel", "deploy_ramdisk", "root_gb"]

  function Param(name: string): string { "pxe_" + name }

  /** The value found for `name` (None when absent). */
  function Field(info: map<string, Value>, name: string): Value {
    Get(info, Param(name), VNone)
  }

  /** Defaults: swap 1 MB, no ephemeral partition, do not preserve it. */
  function SwapMb(info: map<string, Value>): Value { Get(info, "pxe_swap_mb", VInt(1)) }
  function EphemeralGb(info: map<string, Value>): Value { Get(info, "pxe_ephemeral_gb", VInt(0)) }
  function EphemeralFormat(info: map<string, Value>): Value { Field(info, "ephemeral_format") }
  function PreserveEphemeral(info: map<string, Value>): Value { Get(info, "pxe_preserve_ephemeral", VBool(false)) }

  /** The `pxe_` names of the labels whose value is absent or falsy, in order. */
  function MissingParams(info: map<string, Value>, labels: seq<string>): (r: seq<string>)
    ensures |r| <= |labels|
    ensures forall n :: n in r <==> exists l :: l in labels && n == Param(l) && !Truthy(Field(info, l))
  {
    if labels == [] then []
    else
      var rest := MissingParams(info, labels[1..]);
      assert forall l :: l in labels <==> l == labels[0] || l in labels[1..];
      if Truthy(Field(info, labels[0])) then rest else [Param(labels[0])] + rest
  }

  lemma NoneMissing(info: map<string, Value>)
    ensures MissingParams(info, RequiredLabels) == [] <==> AllRequiredPresent(info)
  {
    var missing := MissingParams(info, RequiredLabels);
    if missing != [] {
      assert missing[0] in missing;
    }
    if !AllRequiredPresent(info) {
      var l :| l in RequiredLabels && !Truthy(Field(info, l));
      assert Param(l) in missing;
    }
  }

  /** The exception `int(v)` raises inside the check for `param`, if any. */
  function IntCheck(param: string, v: Value): (r: Option<Error>)
    ensures r.None? <==> ToInt(v).Success?
    // int(None) is a TypeError; any other failure is reported as "not an integer"
    ensures r == Some(TypeError) <==> v.VNone?
    ensures r.Some? && !v.VNone? ==> r == Some(InvalidParameterValue(NotAnInteger(param, StrOf(v))))
  {
    match ToInt(v)
    case Success(_) => None
    case Failure(ValueErr) => Some(InvalidParameterValue(NotAnInteger(param, StrOf(v))))
    case Failure(TypeErr) => Some(TypeError)
  }

  predicate AllRequiredPresent(info: map<string, Value>) {
    forall l :: l in RequiredLabels ==> Truthy(Field(info, l))
  }

  /** An ephemeral size that is truthy as given (so "0" counts) needs a format. */
  predicate EphemeralNeedsFormat(info: map<string, Value>) {
    Truthy(EphemeralGb(info)) && !Truthy(EphemeralFormat(info))
  }

  /** `int()` accepts the root, swap and ephemeral sizes. */
  predicate SizesConvert(info: map<string, Value>) {
    ToInt(Field(info, "root_gb")).Success? && ToInt(SwapMb(info)).Success? && ToInt(EphemeralGb(info)).Success?
  }

  /** When `_parse_driver_info` returns instead of raising. */
  predicate Acceptable(info: map<string, Value>) {
    && AllRequiredPresent(info)
    && SizesConvert(info)
    && !EphemeralNeedsFormat(info)
    && StrictBool(PreserveEphemeral(info)).Some?
  }

  /** `_parse_driver_info(node)` on `node.driver_info`. */
  function ParseDriverInfo(info: map<string, Value>): (r: Result<Info, Error>)
    // raises exactly when the input is not acceptable
    ensures r.Success? <==> Acceptable(info)
    // missing keys are reported first, and all of them
    ensures (r.Failure? && r.error.InvalidParameterValue? && r.error.reason.MissingParameters?)
            <==> !AllRequiredPresent(info)
    ensures r.Failure? && r.error.InvalidParameterValue? && r.error.reason.MissingParameters? ==>
              forall n :: n in r.error.reason.names <==>
                exists l :: l in RequiredLabels && n == Param(l) && !Truthy(Field(info, l))
    // int(None) escapes as a TypeError; only an explicit None size can cause it
    ensures r == Failure(TypeError) ==> SwapMb(info) == VNone || EphemeralGb(info) == VNone
    ensures r == Failure(InvalidParameterValue(EphemeralWithoutFormat)) ==>
              AllRequiredPresent(info) && EphemeralNeedsFormat(info)
    // with every key present, the checks raise in order: the three sizes, the
    // ephemeral format, the preserve flag
    ensures AllRequiredPresent(info) && IntCheck("root_gb", Field(info, "root_gb")).Some? ==>
              r == Failure(IntCheck("root_gb", Field(info, "root_gb")).value)
    ensures AllRequiredPresent(info) && ToInt(Field(info, "root_gb")).Success?
            && IntCheck("swap_mb", SwapMb(info)).Some? ==>
              r == Failure(IntCheck("swap_mb", SwapMb(info)).value)
    ensures AllRequiredPresent(info) && ToInt(Field(info, "root_gb")).Success? && ToInt(SwapMb(info)).Success?
            && IntCheck("ephemeral_gb", EphemeralGb(info)).Some? ==>
              r == Failure(IntCheck("ephemeral_gb", EphemeralGb(info)).value)
    ensures AllRequiredPresent(info) && SizesConvert(info) && EphemeralNeedsFormat(info) ==>
              r == Failure(InvalidParameterValue(EphemeralWithoutFormat))
    ensures AllRequiredPresent(info) && SizesConvert(info) && !EphemeralNeedsFormat(info)
            && StrictBool(PreserveEphemeral(info)).None? ==>
              r == Failure(InvalidParameterValue(NotABoolean("preserve_ephemeral", StrOf(PreserveEphemeral(info)))))
    ensures r.Success? ==>
              && r.value.imageSource == Field(info, "image_source")
              && r.value.deployKernel == Field(info, "deploy_kernel")
              && r.value.deployRamdisk == Field(info, "deploy_ramdisk")
              && r.value.rootGb == Field(info, "root_gb")
              && r.value.deployKey == Field(info, "deploy_key")
              && r.value.swapMb == SwapMb(info)
              && r.value.ephemeralGb == EphemeralGb(info)
              && r.value.ephemeralFormat == EphemeralFormat(info)
              && Some(r.value.preserveEphemeral) == StrictBool(PreserveEphemeral(info))
  {
    var missing := MissingParams(info, RequiredLabels);
    NoneMissing(info);
    if missing != [] then
      Failure(InvalidParameterValue(MissingParameters(missing)))
    else if IntCheck("root_gb", Field(info, "root_gb")).Some? then
      Failure(IntCheck("root_gb", Field(info, "root_gb")).value)
    else if IntCheck("swap_mb", SwapMb(info)).Some? then
      Failure(IntCheck("swap_mb", SwapMb(info)).value)
    else if IntCheck("ephemeral_gb", EphemeralGb(info)).Some? then
      Failure(IntCheck("ephemeral_gb", EphemeralGb(info)).value)
    else if EphemeralNeedsFormat(info) then
      Failure(InvalidParameterValue(EphemeralWithoutFormat))
    else if StrictBool(PreserveEphemeral(info)).None? then
      Failure(InvalidParameterValue(NotABoolean("preserve_ephemeral", StrOf(PreserveEphemeral(info)))))
    else
      Success(Info(
        Field(info, "image_source"), Field(info, "deploy_kernel"), Field(info, "deploy_ramdisk"),
        Field(info, "root_gb"), Field(info, "deploy_key"),
        SwapMb(info), EphemeralGb(info), EphemeralFormat(info),
        StrictBool(PreserveEphemeral(info)).value))
  }

  /**
   * Storing a deploy key (as `_build_pxe_config` does) keeps an acceptable
   * driver info acceptable, and changes only the parsed `deploy_key`.
   */
  lemma StoringKeyKeepsParse(info: map<string, Value>, key: Value)
    requires Acceptable(info)
    ensures var stored := info[Param("deploy_key") := key];
            && Acceptable(stored)
            && ParseDriverInfo(stored) == Success(ParseDriverInfo(info).value.(deployKey := key))
  {
    var k := Param("deploy_key");
    var stored := info[k := key];
    assert |k| == 14;
    forall l | l in RequiredLabels
      ensures Field(stored, l) == Field(info, l)
    {
      assert |Param(l)| != 14;
    }
    assert |"pxe_swap_mb"| != 14 && |"pxe_ephemeral_gb"| != 14 && |"pxe_preserve_ephemeral"| != 14;
    assert |Param("ephemeral_format")| != 14;
    assert SwapMb(stored) == SwapMb(info) && EphemeralGb(stored) == EphemeralGb(info);
    assert EphemeralFormat(stored) == EphemeralFormat(info) && PreserveEphemeral(stored) == PreserveEphemeral(info);
    assert Field(stored, "deploy_key") == key;
  }

  /**
   * The ephemeral check looks at the value as given: the string "0" asks for
   * an ephemeral partition (and so needs a format) while the integer 0 does not.
   */
  lemma EphemeralZeroString(info: map<string, Value>)
    requires AllRequiredPresent(info)
    requires !Truthy(EphemeralFormat(info))
    ensures EphemeralGb(info) == VStr("0") ==> ParseDriverInfo(info).Failure?
    ensures EphemeralGb(info) == VInt(0) ==> !EphemeralNeedsFormat(info)
  {
  }
}
