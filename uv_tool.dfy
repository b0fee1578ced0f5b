/** `UInstaLODUVTool`: computes a new UV layout for the selected meshes and
  * writes it to one texture coordinate channel of the result.
  */
module InstaLODUVTool {
  import opened Wrappers
  import opened Json
  import API = InstaLODAPI
  import opened InstaLODBaseTool

  datatype UnwrapOptions = UnwrapOptions(
    unwrapStrategy: UnwrapStrategy,
    stretchImportance: Importance,
    uvScale: real,
    texCoordIndexOutput: int,
    textureSizeHeight: int,
    textureSizeWidth: int,
    gutterSizeInPixels: int,
    shellStitching: bool,
    insertNormalSplits: bool,
    deterministic: bool)

  /** The property initialisers of the header. */
  const DefaultUnwrapOptions := UnwrapOptions(
    unwrapStrategy := Auto, stretchImportance := Normal, uvScale := 1.0,
    texCoordIndexOutput := 0, textureSizeHeight := 1024, textureSizeWidth := 1024,
    gutterSizeInPixels := 5, shellStitching := true, insertNormalSplits := true,
    deterministic := false)

  /** `ResetSettings`: every option back to its initialiser except the
    * deterministic flag, which keeps its value. */
  function ResetUnwrapOptions(o: UnwrapOptions): (r: UnwrapOptions)
    ensures r == DefaultUnwrapOptions.(deterministic := o.deterministic)
    ensures r.textureSizeWidth == 1024 && r.textureSizeHeight == 1024
    ensures r.gutterSizeInPixels == 5 && r.texCoordIndexOutput == 0 && r.uvScale == 1.0
  {
    DefaultUnwrapOptions.(deterministic := o.deterministic)
  }

  /** The options after reading the "Settings" object `s` over `o`. */
  function ReadUnwrapOptions(s: Object, o: UnwrapOptions): (r: UnwrapOptions)
    ensures r.texCoordIndexOutput == o.texCoordIndexOutput
    ensures "UnwrapStrategy" in s ==> r.unwrapStrategy == GetUnwrapStrategyValueForString(GetStringField(s, "UnwrapStrategy"))
    ensures "UnwrapStrategy" !in s ==> r.unwrapStrategy == o.unwrapStrategy
    ensures "StretchImportance" in s ==> r.stretchImportance == GetImportanceValueForString(GetStringField(s, "StretchImportance"))
    ensures "StretchImportance" !in s ==> r.stretchImportance == o.stretchImportance
  {
    UnwrapOptions(
      unwrapStrategy :=
        if HasField(s, "UnwrapStrategy") then GetUnwrapStrategyValueForString(GetStringField(s, "UnwrapStrategy"))
        else o.unwrapStrategy,
      stretchImportance :=
        if HasField(s, "StretchImportance") then GetImportanceValueForString(GetStringField(s, "StretchImportance"))
        else o.stretchImportance,
      uvScale := NumberOr(s, "UVScale", o.uvScale),
      texCoordIndexOutput := o.texCoordIndexOutput,
      textureSizeHeight := IntegerOr(s, "TextureHeight", o.textureSizeHeight),
      textureSizeWidth := IntegerOr(s, "TextureWidth", o.textureSizeWidth),
      gutterSizeInPixels := IntegerOr(s, "GutterSizeInPixels", o.gutterSizeInPixels),
      shellStitching := BoolOr(s, "ShellStitching", o.shellStitching),
      insertNormalSplits := BoolOr(s, "InsertNormalSplits", o.insertNormalSplits),
      deterministic := BoolOr(s, "Deterministic", o.deterministic))
  }

  /** An empty "Settings" object changes nothing, and reading the same
    * object twice is reading it once. */
  lemma ReadUnwrapOptionsLaws(s: Object, o: UnwrapOptions)
    ensures ReadUnwrapOptions(map[], o) == o
    ensures ReadUnwrapOptions(s, ReadUnwrapOptions(s, o)) == ReadUnwrapOptions(s, o)
  {
  }

  /** `GetUnwrapSettings`: the tool's options in the SDK's terms; the
    * post-process layout keeps the SDK default. */
  function UnwrapSettingsFor(o: UnwrapOptions): (r: API.UnwrapSettings)
    ensures r.unwrapStrategy == ToSDKUnwrapStrategy(o.unwrapStrategy)
    ensures FromSDKImportance(r.stretchImportance) == o.stretchImportance
    ensures r.textureWidth == API.UInt32(o.textureSizeWidth) && r.textureHeight == API.UInt32(o.textureSizeHeight)
    ensures r.texCoordIndexOutput == API.UInt32(o.texCoordIndexOutput)
    ensures r.postProcessLayout == API.DefaultUnwrapSettings.postProcessLayout
  {
    ImportanceCastIsBijection(o.stretchImportance, Normal);
    API.UnwrapSettings(
      unwrapStrategy := ToSDKUnwrapStrategy(o.unwrapStrategy),
      textureWidth := API.UInt32(o.textureSizeWidth),
      textureHeight := API.UInt32(o.textureSizeHeight),
      gutterSizeInPixels := API.UInt32(o.gutterSizeInPixels),
      stretchImportance := ToSDKImportance(o.stretchImportance),
      texCoordIndexOutput := API.UInt32(o.texCoordIndexOutput),
      shellStitching := o.shellStitching,
      insertNormalSplits := o.insertNormalSplits,
      uvScale := o.uvScale,
      postProcessLayout := API.DefaultUnwrapSettings.postProcessLayout,
      deterministic := o.deterministic)
  }

  /** The reset options reach the SDK as the SDK's own defaults. */
  lemma ResetMatchesSDKDefaults(o: UnwrapOptions)
    requires !o.deterministic
    ensures UnwrapSettingsFor(ResetUnwrapOptions(o)) == API.DefaultUnwrapSettings
  {
  }

  /** The number of texture coordinates the input mesh holds in `channel`;
    * a channel past the mesh's channels holds none. */
  function ChannelCount(counts: seq<nat>, channel: int): nat {
    if 0 <= channel < |counts| then counts[channel] else 0
  }

  /** The first empty channel in `from..to`, if any. */
  function FirstEmptyChannel(counts: seq<nat>, from: nat, to: int): (r: Option<nat>)
    ensures r.Some? ==> from <= r.value <= to && ChannelCount(counts, r.value) == 0
    ensures r.Some? ==> (forall c :: from <= c < r.value ==> ChannelCount(counts, c) != 0)
    ensures r.None? ==> (forall c :: from <= c <= to ==> ChannelCount(counts, c) != 0)
    decreases if to < from then 0 else to - from + 1
  {
    if to < from then None
    else if ChannelCount(counts, from) == 0 then Some(from)
    else FirstEmptyChannel(counts, from + 1, to)
  }

  /** The output channel after the clamp: a positive channel falls back to
    * the channel before the first empty one at or below it (channel 0 when
    * that is channel 0 itself); otherwise it stays. */
  function ClampedOutputChannel(counts: seq<nat>, channel: int): int {
    if channel <= 0 then channel
    else
      match FirstEmptyChannel(counts, 0, channel)
      case None => channel
      case Some(c) => if c - 1 < 0 then 0 else c - 1
  }

  /** The clamp only lowers a positive channel, never below 0, and the
    * channel it picks holds coordinates unless it is channel 0; a channel
    * whose channels up to it all hold coordinates is kept. */
  lemma ClampedOutputChannelBounds(counts: seq<nat>, channel: int)
    ensures channel > 0 ==> 0 <= ClampedOutputChannel(counts, channel) <= channel
    ensures channel <= 0 ==> ClampedOutputChannel(counts, channel) == channel
    ensures var r := ClampedOutputChannel(counts, channel);
      channel > 0 && r != channel ==> r == 0 || ChannelCount(counts, r) != 0
    ensures channel > 0 && (forall c :: 0 <= c <= channel ==> ChannelCount(counts, c) != 0)
      ==> ClampedOutputChannel(counts, channel) == channel
  {
    if channel > 0 {
      var f := FirstEmptyChannel(counts, 0, channel);
      if f.Some? && f.value > 0 {
        assert ChannelCount(counts, f.value - 1) != 0;
      }
      if forall c :: 0 <= c <= channel ==> ChannelCount(counts, c) != 0 {
        assert f.None?;
      }
    }
  }

  class UVTool {
    const base: BaseTool
    var options: UnwrapOptions

    /** The constructor: every unwrap option is a configuration property, so
      * the options come from the saved configuration (`DefaultUnwrapOptions`
      * when nothing is saved). */
    constructor(config: UnwrapOptions)
      ensures fresh(base) && base.orderId == 6 && !base.freezesTransformsForMultiSelection
      ensures base.window == null && base.meshComponents == []
      ensures options == config
    {
      base := new BaseTool(6, false);
      options := config;
    }

    /** `ResetSettings`; the base tool's reset is not called. */
    method ResetSettings()
      modifies this
      ensures options == ResetUnwrapOptions(old(options))
    {
      options := ResetUnwrapOptions(options);
    }

    function GetUnwrapSettings(): (r: API.UnwrapSettings)
      reads this
      ensures r == UnwrapSettingsFor(options)
    {
      UnwrapSettingsFor(options)
    }

    /** `ReadSettingsFromJSONObject`: an entry for "UVUnwrap" with a
      * "Settings" object is read over the options; anything else is refused
      * and changes nothing. */
    method ReadSettingsFromJSONObject(json: Option<Object>) returns (ok: bool)
      modifies this
      ensures ok <==> IsValidJSONObject(json, "UVUnwrap") && TryGetObjectField(json.value, "Settings").Some?
      ensures ok ==> options == ReadUnwrapOptions(TryGetObjectField(json.value, "Settings").value, old(options))
      ensures !ok ==> options == old(options)
    {
      if !IsValidJSONObject(json, "UVUnwrap") {
        return false;
      }
      var settings := TryGetObjectField(json.value, "Settings");
      if settings.None? {
        return false;
      }
      options := ReadUnwrapOptions(settings.value, options);
      return true;
    }

    /** The clamp `OnMeshOperationExecute` applies before running the
      * operation: `counts` holds the texture coordinate count of each
      * channel of the input mesh. */
    method ClampTexCoordIndexOutput(counts: seq<nat>)
      modifies this
      ensures options == old(options).(texCoordIndexOutput := ClampedOutputChannel(counts, old(options.texCoordIndexOutput)))
    {
      var target := options.texCoordIndexOutput;
      if target > 0 {
        var channel := 0;
        while channel <= target
          invariant 0 <= channel <= target + 1
          invariant FirstEmptyChannel(counts, 0, target) == FirstEmptyChannel(counts, channel, target)
          decreases target - channel
        {
          if ChannelCount(counts, channel) != 0 {
            channel := channel + 1;
            continue;
          }
          channel := channel - 1;
          target := if channel < 0 then 0 else channel;
          options := options.(texCoordIndexOutput := target);
          return;
        }
      }
    }
  }
}
