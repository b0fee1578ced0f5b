# InstaLOD for Unreal Engine: the plugin's own logic, in Dafny

The InstaLOD plugin connects the Unreal Engine editor to the InstaLOD SDK.
The SDK's mesh optimisation, remeshing, unwrapping and baking live in a
proprietary library that the plugin reaches only through the interfaces of
`InstaLODAPI.h`. This project models the plugin's own logic around those
calls and proves what that logic promises:

- **The SDK's data model** (`InstaLODAPI`): enumerations in declaration
  order, the settings defaults, the mesh validity contract, the bone data
  defaults and the API version.
- **The tools' state** (`InstaLODBaseTool`, `InstaLODBakeBaseTool`,
  `InstaLODOptimizeTool`, `InstaLODRemeshTool`, `InstaLODImposterizeTool`,
  `InstaLODUVTool`, `InstaLODMaterialMergeTool`, `InstaLODOcclusionCullTool`,
  `InstaLODMeshToolKitTool`, `InstaLODIsotropicRemeshTool`).
  - Each tool is a class whose fields hold its settings.
  - `SetActiveSettingsIndex`, `ResetSettings` and `ReadSettingsFromJSONObject`
    are methods that update those fields.
  - The conversion of the fields into an SDK settings struct is a function.
  - The executability checks are functions over the selection.
- **Profiles** (`Json`, `InstaLODSettings`): JSON values, the string-to-enum
  parsers with their fallbacks, and `LoadProfile`'s validation chain. That
  chain dispatches the single entry to the first tool that accepts it and
  selects that tool's tab.
- **The window** (`InstaLODWindow`, `InstaLODTypes`): the selected mesh
  components, the filters and counts over them, and the active tab.
- **The script-side settings objects** (`InstaLODMaterial`,
  `InstaLODScriptSettings`): how each is turned into SDK settings.
- **Buffer bookkeeping in the mesh reduction module**
  (`InstaLODMeshReduction`, `UEColor`):
  - NaN/Inf sanitising;
  - texture-coordinate channel compaction;
  - degenerate triangle and mesh section skipping;
  - bone influence import and export;
  - 8-bit and 16-bit texture page copies with a vertical flip;
  - texture size biasing.
- **The shared utilities** (`InstaLODUtilities`):
  - packing Metallic, Roughness and Specular into one texture;
  - save path cleaning and uniqueness;
  - the imposter plane mesh;
  - the LOD insertion and removal rules for static and skeletal meshes;
  - the hand-over of a script result.
- **The scripting entry points** (`InstaLODScriptWrapper`): entry
  validation, the correction of the base and target LOD indices, the
  polygonal/billboard split of a hybrid billboard cloud, and the script
  operation that runs a callback over the entries.

Floats are `real`. Unsigned 32-bit arithmetic is written out where it wraps.
Engine strings are `seq<char>`, and their comparisons ignore case (ASCII
lower-casing). Engine objects that the code updates in place are classes;
a null pointer is a null reference or `None`. The user's answers to dialogs,
whether a folder exists, the SDK's results and console variables are
parameters.

Where the plugin's code departs from what it evidently intends (see
"## Findings"), the model holds both versions: the code as written, in the
members named `...AsWritten` (or in a witness lemma next to the finding), and
the corrected definition. The tool classes, the settings dispatch
(`InstaLODSettings`) and `ScriptOperation.Execute` are built on the corrected
members; the rows below that describe them say "corrected (see Findings)".

## Model

| member | source | states |
|---|---|---|
| InstaLODAPI.WedgeColorsAttribute | Source/InstaLODMeshReduction/Public/InstaLOD/InstaLODAPI.h:670-671 | colour set `i` has attribute number 9 + i, inside [AttributeTypeWedgeColors0, AttributeTypeWedgeColorsMax) |
| InstaLODAPI.WedgeTexCoordsAttribute | Source/InstaLODMeshReduction/Public/InstaLOD/InstaLODAPI.h:672-673 | texture coordinate set `i` has attribute number AttributeTypeWedgeTexCoords0 + i, inside its range |
| InstaLODAPI.AttributeRangesDisjoint | Source/InstaLODMeshReduction/Public/InstaLOD/InstaLODAPI.h:353-354 | colour and texture coordinate attribute numbers never collide; texture coordinates occupy 13..20 |
| InstaLODAPI.ApiVersionOf | Source/InstaLODMeshReduction/Public/InstaLOD/InstaLODAPI.h:6105 | the packed version holds the major number above bit 16 and the minor number modulo 2^16 below it |
| InstaLODAPI.ApiVersionValue | Source/InstaLODMeshReduction/Public/InstaLOD/InstaLODAPI.h:6102-6105 | the API version is 0x6000B and unpacks to 6 and 11 |
| InstaLODAPI.ImportanceOrdinal | Source/InstaLODMeshReduction/Public/InstaLOD/InstaLODAPI.h:462-475 | an importance level's value is below `Count` (6) |
| InstaLODAPI.SuperSamplingFromOrdinal | Source/InstaLODMeshReduction/Public/InstaLOD/InstaLODAPI.h:509-522 | value 0 and only value 0 is `None` |
| InstaLODAPI.ImposterTypeFromOrdinal | Source/InstaLODMeshReduction/Public/InstaLOD/InstaLODAPI.h:4017-4028 | value 4 and only value 4 is `CustomGeometry` |
| InstaLODAPI.DataUsageFromOrdinal | Source/InstaLODMeshReduction/Public/InstaLOD/InstaLODAPI.h:4806-4817 | value 0 and only value 0 is `RemoveGeometry` |
| InstaLODAPI.UInt32 | Source/InstaLODMeshReduction/Public/InstaLOD/InstaLODAPI.h:543 | a conversion to `uint32` lands in [0, 2^32) and leaves values already in range alone |
| InstaLODAPI.InitializeSkinnedData | Source/InstaLODMeshReduction/Public/InstaLOD/InstaLODAPI.h:540-567 | `Initialize` leaves vertexCount * maximumInfluences slots, each with no bone and zero weight |
| InstaLODAPI.BoneSlot | Source/InstaLODMeshReduction/Public/InstaLOD/InstaLODAPI.h:555-567 | influence `i` of vertex `v` sits at a slot inside the array whose quotient and remainder by the slot count are `v` and `i` |
| InstaLODAPI.GetValue | Source/InstaLODMeshReduction/Public/InstaLOD/InstaLODAPI.h:1609-1617 | succeeds exactly when the component has data, and then yields it; otherwise the value is left alone |
| InstaLODTypes.FromStaticMeshComponent | Source/InstaLODUI/Private/InstaLODTypes.h:27-32 | the entry holds the static mesh component, the other two pointers are null, and it is included |
| InstaLODTypes.FromSkeletalMeshComponent | Source/InstaLODUI/Private/InstaLODTypes.h:34-39 | the entry holds the skeletal mesh component, the other two pointers are null, and it is included |
| InstaLODTypes.FromCameraComponent | Source/InstaLODUI/Private/InstaLODTypes.h:41-46 | the entry holds the camera component, the other two pointers are null, and it is included |
| InstaLODTypes.GetComponent | Source/InstaLODUI/Private/InstaLODTypes.h:52-70 | a live static component comes first, then a live skeletal one, then a camera; null exactly when all three are null |
| InstaLODTypes.ConstructedComponent | Source/InstaLODUI/Private/InstaLODTypes.h:27-50 | an entry built from a pointer is valid exactly when that engine object is live, and `GetComponent` gives that pointer back |
| InstaLODTypes.MeshAsset | Source/InstaLODUI/Private/Tools/InstaLODBaseTool.cpp:180-199 | the asset an entry is checked under is its static mesh when it has a static component, otherwise the asset of its skeletal component when it has one, and nothing when it has neither mesh component |
| InstaLODWindow.Filter | Source/InstaLODUI/Private/Slate/InstaLODWindow.cpp:348-365 | the kept entries satisfy the test, keep their order, and are exactly the entries of the selection that pass it |
| InstaLODWindow.EnabledMeshHasAsset | Source/InstaLODUI/Private/Slate/InstaLODWindow.cpp:367-393 | an entry the enabled-mesh filter keeps always stands for a mesh asset |
| InstaLODWindow.Window.constructor | Source/InstaLODUI/Private/Slate/InstaLODWindow.cpp:49 | a window over a selection starts on tab 0 with its registered tools |
| InstaLODWindow.Window.CountIncluded | Source/InstaLODUI/Private/Slate/InstaLODWindow.cpp:291-322 | the counting loop returns the number of included entries with the requested component, at most the selection's size |
| InstaLODWindow.Window.GetNumCameraComponents | Source/InstaLODUI/Private/Slate/InstaLODWindow.cpp:291-300 | the count of included entries with a live camera component |
| InstaLODWindow.Window.GetNumStaticMeshsComponents | Source/InstaLODUI/Private/Slate/InstaLODWindow.cpp:302-311 | the count of included entries with a live static mesh component |
| InstaLODWindow.Window.GetNumSkeletalMeshComponents | Source/InstaLODUI/Private/Slate/InstaLODWindow.cpp:313-322 | the count of included entries with a live skeletal mesh component |
| InstaLODWindow.Window.GetEnabledSelectedCameraComponents | Source/InstaLODUI/Private/Slate/InstaLODWindow.cpp:348-365 | exactly the included camera entries, in selection order |
| InstaLODWindow.Window.GetEnabledSelectedMeshComponents | Source/InstaLODUI/Private/Slate/InstaLODWindow.cpp:367-395 | exactly the included entries with a static or skeletal component whose mesh is present, in selection order |
| InstaLODWindow.Window.GetSelectedStaticMeshActors | Source/InstaLODUI/Private/Slate/InstaLODWindow.cpp:330-346 | each selected static mesh actor once (no duplicates), and nothing else |
| InstaLODWindow.Window.SetCurrentActiveTabIndex | Source/InstaLODUI/Private/Slate/InstaLODWindow.cpp:436-443 | a registered tool index becomes the current tool; any other index changes nothing; the selection is untouched |
| InstaLODBaseTool.SuperSamplingOrdinal | Source/InstaLODUI/Private/Tools/InstaLODBaseTool.h:49-55 | the plugin's super sampling values have the ordinals 0, 1 and 2 |
| InstaLODBaseTool.ToSDKSuperSampling | Source/InstaLODUI/Private/Tools/InstaLODBakeBaseTool.cpp:53 | the numeric cast maps None, x2 and x4 to the SDK's None, X2 and X4 |
| InstaLODBaseTool.FromSDKImportance | Source/InstaLODUI/Private/Tools/InstaLODBaseTool.h:25-34 | the inverse of the importance cast: casting its result gives the SDK level back |
| InstaLODBaseTool.ImportanceCastIsBijection | Source/InstaLODUI/Private/Tools/InstaLODOptimizeTool.cpp:292-295 | the numeric importance cast is one-to-one and undone by the inverse cast |
| InstaLODBaseTool.GetImportanceValueForString | Source/InstaLODUI/Private/Tools/InstaLODBaseTool.cpp:904-921 | the result's name matches the string ignoring case, or it is Normal; a string matching no name gives Normal |
| InstaLODBaseTool.ImportanceNameRoundTrip | Source/InstaLODUI/Private/Tools/InstaLODBaseTool.cpp:904-921 | every level's name, in any letter case, parses back to that level |
| InstaLODBaseTool.ImportanceOr | Source/InstaLODUI/Private/Tools/InstaLODMaterialMergeTool.cpp:220-229 | a missing key keeps the current level; a present key is parsed with GetImportanceValueForString |
| InstaLODBaseTool.UnwrapStrategyCastInjective | Source/InstaLODUI/Private/Tools/InstaLODUVTool.cpp:37-51 | the unwrap strategy conversion is one-to-one |
| InstaLODBaseTool.GetUnwrapStrategyValueForString | Source/InstaLODUI/Private/Tools/InstaLODBaseTool.cpp:923-936 | the result's name matches the string ignoring case, or it is Auto; a string matching no name gives Auto |
| InstaLODBaseTool.UnwrapStrategyNameRoundTrip | Source/InstaLODUI/Private/Tools/InstaLODBaseTool.cpp:923-936 | every strategy's name, in any letter case, parses back to that strategy |
| InstaLODBaseTool.IsValidJSONObjectAccepts | Source/InstaLODUI/Private/Tools/InstaLODBaseTool.cpp:938-952 | an entry is accepted exactly when it exists, has Settings and a string Type, and Type equals the operation name ignoring case |
| InstaLODBaseTool.LODGroupDialogLinesAsWritten | Source/InstaLODUI/Private/Tools/InstaLODBaseTool.cpp:229-232 | as written, the dialog has one line per selected entry, read through its static mesh component; the read is of a null component exactly for the entries without one |
| InstaLODBaseTool.LODGroupDialogReadsNullComponent | Source/InstaLODUI/Private/Tools/InstaLODBaseTool.cpp:168-232 | a static mesh with a LOD group plus a skeletal mesh, appended to the LOD chain, reaches the dialog, and listing it reads the skeletal entry's null static component |
| InstaLODBaseTool.LODGroupDialogLines | Source/InstaLODUI/Private/Tools/InstaLODBaseTool.cpp:175-193 | the corrected list: only packages of static meshes with a LOD group, non-empty exactly when there is one |
| InstaLODBaseTool.StripAllWithoutPrefixes | Source/InstaLODUI/Private/Tools/InstaLODBaseTool.cpp:126-131 | a name that contains none of the prefixes is left unchanged |
| InstaLODBaseTool.StripAllShortens | Source/InstaLODUI/Private/Tools/InstaLODBaseTool.cpp:126-131 | a name that contains one of the prefixes gets strictly shorter |
| InstaLODBaseTool.StripAllNoLonger | Source/InstaLODUI/Private/Tools/InstaLODBaseTool.cpp:126-131 | stripping never makes a name longer |
| InstaLODBaseTool.ReplaceShortens | Source/InstaLODUI/Private/Tools/InstaLODBaseTool.cpp:127 | removing a non-empty string that occurs makes the text strictly shorter |
| InstaLODBaseTool.StrippedNameMayStillHoldPrefix | Source/InstaLODUI/Private/Tools/InstaLODBaseTool.cpp:127-131 | removing "SK_" from "SSK_K_" leaves a new "SK_": a stripped name may still hold a prefix |
| InstaLODBaseTool.BaseTool.constructor | Source/InstaLODUI/Private/Tools/InstaLODBaseTool.cpp:34-48 | a new tool has no window and no selection, appends to LOD 0 without replacing, keeps the default pivot, and is valid |
| InstaLODBaseTool.BaseTool.SkeletalMeshsSelected | Source/InstaLODUI/Private/Tools/InstaLODBaseTool.cpp:85-88 | true exactly when there is a window and it holds an included skeletal mesh entry |
| InstaLODBaseTool.BaseTool.StaticMeshsSelected | Source/InstaLODUI/Private/Tools/InstaLODBaseTool.cpp:90-93 | true exactly when there is a window and it holds an included static mesh entry |
| InstaLODBaseTool.BaseTool.OnNewSelection | Source/InstaLODUI/Private/Tools/InstaLODBaseTool.cpp:55-66 | takes the window's enabled meshes; the flags become "skeletal selected", "static selected" and "skeletal and exactly one entry"; the settings are untouched and validity is kept |
| InstaLODBaseTool.BaseTool.SetInstaLODWindow | Source/InstaLODUI/Private/Tools/InstaLODBaseTool.cpp:72-83 | a null window changes nothing; otherwise the window is kept and the three flags are recomputed for it, the selection untouched |
| InstaLODBaseTool.ScanSelection | Source/InstaLODUI/Private/Tools/InstaLODBaseTool.cpp:171-205 | the walk reports a duplicate exactly when two keyed entries share their mesh asset, and otherwise collects exactly the packages of the static meshes with a LOD group, in selection order |
| InstaLODBaseTool.BaseTool.IsMeshOperationExecutable | Source/InstaLODUI/Private/Tools/InstaLODBaseTool.cpp:140-252 | corrected (see Findings): the LOD group dialog lists only the static meshes with a LOD group, where the source reads every entry through its static component; succeeds exactly when no check fails (empty selection, freeze without a new asset, a shared mesh, a LOD group); the error text is that reason when asked for; the dialog lists the LOD group packages exactly when it is shown |
| InstaLODBaseTool.BaseTool.GetDefaultPackageName | Source/InstaLODUI/Private/Tools/InstaLODBaseTool.cpp:95-134 | the first selected mesh's package (or the fresh unique name when there is none) with "SM_", "T_", "M_", "ML_" and "SK_" removed in that order |
| InstaLODBaseTool.BaseTool.ResetSettings | Source/InstaLODUI/Private/Tools/InstaLODBaseTool.cpp:893-901 | target LOD 0, replace off, default pivot; the selection, the flags and the result usage are kept |
| InstaLODMaterial.GetMaterialProxySettings | Source/InstaLODUI/Private/Tools/InstaLODBakeBaseTool.cpp:188-219 | every property the engine proxy shares is copied from the material settings; the specular texture size and the opacity constants keep the engine's defaults |
| InstaLODMaterial.ProxyIgnoresUncopiedProperties | Source/InstaLODUI/Public/Scripting/Settings/InstaLODMaterialSettings.h:112-142 | settings that differ only in the texture filter, specular texture size or opacity constants give the same proxy |
| InstaLODMaterial.ProxyKeepsCopiedProperties | Source/InstaLODUI/Private/Tools/InstaLODBakeBaseTool.cpp:192-216 | equal proxies come from settings that agree on every copied property: nothing copied is lost |
| InstaLODMaterial.ScriptGetBakeOutputSettingsAsWritten | Source/InstaLODUI/Public/Scripting/Settings/InstaLODMaterialSettings.h:250-289 | as written: the fixed tangent space conventions, and both the ambient occlusion and the thickness sample counts taken from the thickness count |
| InstaLODMaterial.AmbientOcclusionSampleCountIgnored | Source/InstaLODUI/Public/Scripting/Settings/InstaLODMaterialSettings.h:286 | asking for 64 ambient occlusion rays with the default 32 thickness rays still bakes with 32 |
| InstaLODMaterial.ScriptGetBakeOutputSettings | Source/InstaLODUI/Public/Scripting/Settings/InstaLODMaterialSettings.h:250-289 | the corrected conversion: each sample count comes from its own property (as 32-bit unsigned), every page flag and option carried over, the tangent space conventions fixed |
| InstaLODMaterial.AsWrittenAgreesOnlyOnEqualCounts | Source/InstaLODUI/Public/Scripting/Settings/InstaLODMaterialSettings.h:286-287 | the written and corrected conversions agree exactly when the two sample counts are equal as 32-bit values |
| InstaLODBakeBaseTool.SuperSamplingForString | Source/InstaLODUI/Private/Tools/InstaLODBakeBaseTool.cpp:159-179 | x2 exactly for "x2" in any case; x4 exactly for "x4" or "x8" in any case; none for anything else |
| InstaLODBakeBaseTool.SuperSamplingNames | Source/InstaLODUI/Private/Tools/InstaLODBakeBaseTool.cpp:163-178 | "x16" reads as none, "x8" as x4, and each level's own name reads back as that level |
| InstaLODBakeBaseTool.ReadBakeOptionsKeys | Source/InstaLODUI/Private/Tools/InstaLODBakeBaseTool.cpp:105-183 | an object with none of the bake keys changes nothing; a present "SuperSampling" key sets super sampling through its names; reflectance is on exactly when its key holds true |
| InstaLODBakeBaseTool.ReadBakeOptionsProfile | Source/InstaLODUI/Private/Tools/InstaLODBakeBaseTool.cpp:107-183 | reading a profile that states every option yields exactly those options, whatever was held before |
| InstaLODBakeBaseTool.ReadBakeOptionsIdempotent | Source/InstaLODUI/Private/Tools/InstaLODBakeBaseTool.cpp:107-183 | reading the same object twice equals reading it once |
| InstaLODBakeBaseTool.BakeOutputObject | Source/InstaLODUI/Private/Tools/InstaLODBakeBaseTool.cpp:79-105 | found exactly when the entry exists with an object "Settings" holding an object "BakeOutputSettings", and is that object |
| InstaLODBakeBaseTool.BakeOutputSettingsFor | Source/InstaLODUI/Private/Tools/InstaLODBakeBaseTool.cpp:43-75 | the fixed OpenGL tangent space, per-fragment binormals, UV channel 0, no transfer page; super sampling cast, filter from the material settings, every page flag from its option, the sample counts left at the SDK defaults |
| InstaLODBakeBaseTool.BakeOptionsFromSettingsAsWritten | Source/InstaLODUI/Private/Tools/InstaLODRemeshTool.cpp:377 | as written, the remesh and imposterize readers hand the bake reader the "Settings" object, so it finds bake options only under a nested "Settings" |
| InstaLODBakeBaseTool.SettingsObjectBakeOptionsLost | Source/InstaLODUI/Private/Tools/InstaLODBakeBaseTool.cpp:82-105 | an entry whose "Settings" turns the opacity page on leaves it off when read the written way, and turns it on when the entry is read |
| InstaLODBakeBaseTool.BakeOptionsFromEntry | Source/InstaLODUI/Private/Tools/InstaLODBakeBaseTool.cpp:77-186 | the corrected reading: the entry's own "Settings"/"BakeOutputSettings" object is read; without one nothing changes |
| InstaLODBakeBaseTool.BakeOptionsFromEntryProfile | Source/InstaLODUI/Private/Tools/InstaLODBakeBaseTool.cpp:97-183 | read from the entry, a profile stating every bake option sets all of them |
| InstaLODBakeBaseTool.BakeBaseTool.constructor | Source/InstaLODUI/Private/Tools/InstaLODBakeBaseTool.h:168-221 | a new bake tool has the header's bake defaults, the default material settings and a fresh, valid base tool |
| InstaLODBakeBaseTool.BakeBaseTool.ResetSettings | Source/InstaLODUI/Private/Tools/InstaLODBakeBaseTool.cpp:17-41 | every bake option back to its default except the reflectance page, which keeps its value; default material settings; then the base tool's reset |
| InstaLODBakeBaseTool.BakeBaseTool.GetBakeOutputSettings | Source/InstaLODUI/Private/Tools/InstaLODBakeBaseTool.cpp:43-75 | the tool's SDK bake output is the one its options and material settings ask for (see BakeOutputSettingsFor) |
| InstaLODBakeBaseTool.BakeBaseTool.GetToolMaterialProxySettings | Source/InstaLODUI/Private/Tools/InstaLODBakeBaseTool.cpp:188-219 | every shared property copied from the tool's material settings; the specular texture size left at the engine's default |
| InstaLODBakeBaseTool.BakeBaseTool.ReadSettingsFromJSONObject | Source/InstaLODUI/Private/Tools/InstaLODBakeBaseTool.cpp:77-186 | succeeds exactly when the entry holds "Settings"/"BakeOutputSettings"; then the options are that object read over the old ones, otherwise unchanged; material settings never change |
| InstaLODOptimizeTool.TargetForIndex | Source/InstaLODUI/Private/Tools/InstaLODOptimizeTool.cpp:47-69 | index 1 selects the absolute count, 2 the screen size, and 0 or any other index the percentage |
| InstaLODOptimizeTool.ResetOptimizeOptions | Source/InstaLODUI/Private/Tools/InstaLODOptimizeTool.cpp:120-158 | the documented defaults (50 percent, 4 triangles, 300 pixels, automatic quality off, boundary Normal, 80 degrees, protections on); the skeleton options are left alone |
| InstaLODOptimizeTool.ReadSkeletonOptions | Source/InstaLODUI/Private/Tools/InstaLODOptimizeTool.cpp:429-453 | an empty "SkeletonOptimize" object changes nothing; each present key sets its option |
| InstaLODOptimizeTool.ReadOptimizeOptions | Source/InstaLODUI/Private/Tools/InstaLODOptimizeTool.cpp:326-456 | a present "PercentTriangles" fraction is stored times 100, an absent one keeps the value; welding distance and vertex-colour weights are never read |
| InstaLODOptimizeTool.ReadOptimizeOptionsEmpty | Source/InstaLODUI/Private/Tools/InstaLODOptimizeTool.cpp:343-453 | a "Settings" object with none of the keys changes nothing |
| InstaLODOptimizeTool.ReadOptimizeOptionsIdempotent | Source/InstaLODUI/Private/Tools/InstaLODOptimizeTool.cpp:343-453 | reading the same object twice equals reading it once |
| InstaLODOptimizeTool.PercentTrianglesRoundTrip | Source/InstaLODUI/Private/Tools/InstaLODOptimizeTool.cpp:276 | a profile fraction, stored as a percentage, reaches the SDK as the same fraction under the percentage target |
| InstaLODOptimizeTool.ImportanceOptionRoundTrip | Source/InstaLODUI/Private/Tools/InstaLODOptimizeTool.cpp:400-423 | an importance written under its own name, in any case, reads back as that level |
| InstaLODOptimizeTool.OptimizeSettingsFor | Source/InstaLODUI/Private/Tools/InstaLODOptimizeTool.cpp:268-324 | as written: only the first selected target is filled (percentage divided by 100, counts as 32-bit unsigned), the others keep SDK defaults; Smart v2; the skeleton settings and the boundary importance keep the SDK defaults |
| InstaLODOptimizeTool.BoundaryImportanceIgnored | Source/InstaLODUI/Private/Tools/InstaLODOptimizeTool.cpp:292-296 | choosing Highest or Off as boundary importance gives identical SDK settings, whose boundary importance is Normal |
| InstaLODOptimizeTool.OptimizeSettingsWithBoundaryImportance | Source/InstaLODUI/Private/Tools/InstaLODOptimizeTool.cpp:292-296 | the corrected conversion: the boundary importance is cast like the four others, everything else as written |
| InstaLODOptimizeTool.BoundaryImportanceHonoured | Source/InstaLODUI/Private/Tools/InstaLODOptimizeTool.cpp:400-404 | with the correction, two different boundary importances give different SDK settings |
| InstaLODOptimizeTool.OnlySelectedTargetFilled | Source/InstaLODUI/Private/Tools/InstaLODOptimizeTool.cpp:42-69 | with the flags an index sets, only the selected target reaches the SDK; the others keep their defaults |
| InstaLODOptimizeTool.OptimizeTool.constructor | Source/InstaLODUI/Private/Tools/InstaLODOptimizeTool.cpp:27-34 | the options and index come from the saved configuration, no bake pose, flags set from the index |
| InstaLODOptimizeTool.OptimizeTool.OnNewSelection | Source/InstaLODUI/Private/Tools/InstaLODOptimizeTool.cpp:36-40 | the base tool's refresh, then the bake pose is cleared; the options and the target are untouched |
| InstaLODOptimizeTool.OptimizeTool.SetActiveSettingsIndex | Source/InstaLODUI/Private/Tools/InstaLODOptimizeTool.cpp:42-75 | stores the index and sets exactly one flag, the one of the target it selects |
| InstaLODOptimizeTool.OptimizeTool.ResetSettings | Source/InstaLODUI/Private/Tools/InstaLODOptimizeTool.cpp:120-162 | index 0 with the percentage flag, the reset options, then the base reset; the bake pose is kept |
| InstaLODOptimizeTool.OptimizeTool.GetOptimizeSettings | Source/InstaLODUI/Private/Tools/InstaLODOptimizeTool.cpp:268-324 | the tool's SDK settings are the corrected conversion of its options and target flags |
| InstaLODOptimizeTool.OptimizeTool.ReadSettingsFromJSONObject | Source/InstaLODUI/Private/Tools/InstaLODOptimizeTool.cpp:326-456 | succeeds exactly for an "Optimize" entry with an object "Settings", which is then read over the options; the target is never changed |
| InstaLODRemeshTool.RemeshCastsInjective | Source/InstaLODUI/Private/Tools/InstaLODRemeshTool.cpp:194-198 | the surface mode and face count casts are one-to-one |
| InstaLODRemeshTool.ResolutionPixels | Source/InstaLODUI/Private/Tools/InstaLODRemeshTool.cpp:213-232 | every resolution level asks for between 100 and 2048 pixels |
| InstaLODRemeshTool.ResolutionPixelsIncreasing | Source/InstaLODUI/Private/Tools/InstaLODRemeshTool.cpp:213-232 | a higher level asks for strictly more pixels, and only a higher one does |
| InstaLODRemeshTool.SurfaceModeForString | Source/InstaLODUI/Private/Tools/InstaLODRemeshTool.cpp:268-292 | the mode whose name matches ignoring case; a name matching none keeps the current mode |
| InstaLODRemeshTool.SurfaceModeNameRoundTrip | Source/InstaLODUI/Private/Tools/InstaLODRemeshTool.cpp:268-292 | every mode's name, in any case, reads back as that mode |
| InstaLODRemeshTool.FaceCountForString | Source/InstaLODUI/Private/Tools/InstaLODRemeshTool.cpp:309-337 | the level whose name matches ignoring case; a name matching none keeps the current target |
| InstaLODRemeshTool.FaceCountNameRoundTrip | Source/InstaLODUI/Private/Tools/InstaLODRemeshTool.cpp:309-337 | every face count level's name, in any case, reads back as that level |
| InstaLODRemeshTool.RemeshTargetForIndex | Source/InstaLODUI/Private/Tools/InstaLODRemeshTool.cpp:42-64 | index 1 selects the maximum triangle count, 2 the screen size, 0 or any other the fuzzy face count |
| InstaLODRemeshTool.ReadRemeshOptionsKeeps | Source/InstaLODUI/Private/Tools/InstaLODRemeshTool.cpp:268-375 | absent "SurfaceMode" and "FuzzyFaceCountTarget" keep their choices; the resolution, automatic texture size, hard angle and welding distance are never read |
| InstaLODRemeshTool.UnknownNamesKeepChoice | Source/InstaLODUI/Private/Tools/InstaLODRemeshTool.cpp:288-291 | unknown surface mode and face count names leave both choices as they were |
| InstaLODRemeshTool.ReadRemeshOptionsIdempotent | Source/InstaLODUI/Private/Tools/InstaLODRemeshTool.cpp:268-375 | reading the same object twice equals reading it once |
| InstaLODRemeshTool.RemeshingSettingsFor | Source/InstaLODUI/Private/Tools/InstaLODRemeshTool.cpp:190-249 | resolution as pixels, the mode cast, only the first selected target filled (screen size together with merge distance and automatic texture size), CPU baking, the given bake output and alpha threshold |
| InstaLODRemeshTool.ScreenSizeOptionsOnlyForScreenSize | Source/InstaLODUI/Private/Tools/InstaLODRemeshTool.cpp:203-209 | unless the screen size is selected, the merge distance, automatic texture size and screen size keep the SDK defaults |
| InstaLODRemeshTool.RemeshTool.constructor | Source/InstaLODUI/Private/Tools/InstaLODRemeshTool.cpp:29-35 | options and index from the saved configuration, flags set from the index, a fresh bake part with order 2 that freezes transforms |
| InstaLODRemeshTool.RemeshTool.SetActiveSettingsIndex | Source/InstaLODUI/Private/Tools/InstaLODRemeshTool.cpp:37-70 | stores the index and sets exactly the flag of the target it selects |
| InstaLODRemeshTool.RemeshTool.ResetSettings | Source/InstaLODUI/Private/Tools/InstaLODRemeshTool.cpp:163-188 | the header's defaults, index 0 with the face count flag, then the bake tool's reset |
| InstaLODRemeshTool.RemeshTool.GetRemeshingSettings | Source/InstaLODUI/Private/Tools/InstaLODRemeshTool.cpp:190-249 | the SDK settings for the tool's options, target flags, bake output and alpha threshold |
| InstaLODRemeshTool.RemeshTool.ReadSettingsFromJSONObject | Source/InstaLODUI/Private/Tools/InstaLODRemeshTool.cpp:251-380 | corrected (see Findings): the bake options are read from the entry, where the source hands the bake reader the inner "Settings" object; succeeds exactly for a "Remesh" entry with an object "Settings": the options read over the old ones, the alpha threshold, then the bake options read from the entry; otherwise nothing changes; the target never changes |
| InstaLODImposterizeTool.ToSDKImposterType | Source/InstaLODUI/Private/Tools/InstaLODImposterizeTool.cpp:663 | a vista imposter is sent as custom geometry, and only a vista imposter is |
| InstaLODImposterizeTool.ImposterTypeCastInjective | Source/InstaLODUI/Private/Tools/InstaLODImposterizeTool.cpp:663 | the type conversion is one-to-one |
| InstaLODImposterizeTool.ImposterTypeForString | Source/InstaLODUI/Private/Tools/InstaLODImposterizeTool.cpp:367-390 | the type whose name matches, or the current one; never selects vista unless it was already vista; a name matching no type keeps the current one |
| InstaLODImposterizeTool.ImposterTypeNameRoundTrip | Source/InstaLODUI/Private/Tools/InstaLODImposterizeTool.cpp:367-390 | each of the four profile type names reads back as its type |
| InstaLODImposterizeTool.CloudNormalForString | Source/InstaLODUI/Private/Tools/InstaLODImposterizeTool.cpp:444-455 | a string that does not split into exactly three tokens leaves the normal unchanged |
| InstaLODImposterizeTool.ThreeTokens | Source/InstaLODUI/Private/Tools/InstaLODImposterizeTool.cpp:449 | three space-free tokens joined by single spaces split back into those three tokens |
| InstaLODImposterizeTool.CloudNormalRoundTrip | Source/InstaLODUI/Private/Tools/InstaLODImposterizeTool.cpp:444-455 | a normal written as three whole numbers separated by spaces is read back as those numbers |
| InstaLODImposterizeTool.ResetImposterizeOptions | Source/InstaLODUI/Private/Tools/InstaLODImposterizeTool.cpp:622-645 | billboard type with at least one billboard quad count and one cloud axis set; the alpha cut-out options and the deterministic flag keep their values |
| InstaLODImposterizeTool.ResetImposterizeOptionsIdempotent | Source/InstaLODUI/Private/Tools/InstaLODImposterizeTool.cpp:622-645 | resetting twice equals resetting once |
| InstaLODImposterizeTool.ReadImposterizeOptions | Source/InstaLODUI/Private/Tools/InstaLODImposterizeTool.cpp:364-459 | an absent "Type" keeps the type; "CloudPolyFaceFactor" is stored times 100; subdivisions, displacement, suffix, vista distance, parallel plane and alpha cut-out are never read |
| InstaLODImposterizeTool.ReadImposterizeOptionsEmpty | Source/InstaLODUI/Private/Tools/InstaLODImposterizeTool.cpp:367-459 | an empty "Settings" object changes nothing |
| InstaLODImposterizeTool.ReadImposterizeOptionsIdempotent | Source/InstaLODUI/Private/Tools/InstaLODImposterizeTool.cpp:367-459 | reading the same object twice equals reading it once |
| InstaLODImposterizeTool.ImposterizeSettingsFor | Source/InstaLODUI/Private/Tools/InstaLODImposterizeTool.cpp:659-696 | the type conversion without custom geometry, the face factor divided by 100, the quad and face counts as 32-bit unsigned, the cloud normal, CPU baking, the given bake output and alpha threshold |
| InstaLODImposterizeTool.CloudPolyFaceFactorRoundTrip | Source/InstaLODUI/Private/Tools/InstaLODImposterizeTool.cpp:408-411 | the fraction a profile gives is the fraction the SDK receives |
| InstaLODImposterizeTool.VistaCheckAsWrittenMeaning | Source/InstaLODUI/Private/Tools/InstaLODImposterizeTool.cpp:584 | the written check accepts exactly the selections with at least one actor and at least one camera |
| InstaLODImposterizeTool.VistaCheckAcceptsTwoCameras | Source/InstaLODUI/Private/Tools/InstaLODImposterizeTool.cpp:63-64 | one actor and two cameras pass the written check but fail the plane construction's one-camera requirement |
| InstaLODImposterizeTool.VistaCheckCorrected | Source/InstaLODUI/Private/Tools/InstaLODImposterizeTool.cpp:63-64 | the corrected check accepts exactly one camera with at least one actor, and refuses all the written check refuses |
| InstaLODImposterizeTool.ImposterizeFailure | Source/InstaLODUI/Private/Tools/InstaLODImposterizeTool.cpp:549-595 | corrected (see Findings): the vista check asks for exactly one camera, where the source accepts any positive number; the base tool's reason first; a billboard without quads and a billboard cloud without an axis are refused; a vista imposter is refused exactly when its selection is not usable; box and flipbook pass |
| InstaLODImposterizeTool.Sections | Source/InstaLODUI/Private/Tools/InstaLODImposterizeTool.cpp:483-499 | the used material indices whose names do (or do not) end with the suffix, each once |
| InstaLODImposterizeTool.SplitKeepsFaces | Source/InstaLODUI/Private/Tools/InstaLODImposterizeTool.cpp:501-537 | the polygon part and the billboard part together hold exactly the mesh's faces, as a multiset |
| InstaLODImposterizeTool.SectionsCover | Source/InstaLODUI/Private/Tools/InstaLODImposterizeTool.cpp:483-499 | every face's material is in exactly one of the two section lists |
| InstaLODImposterizeTool.SplitSeparatesByName | Source/InstaLODUI/Private/Tools/InstaLODImposterizeTool.cpp:491-498 | every face of a part has a material whose name ends with the suffix exactly when the part is the polygon one |
| InstaLODImposterizeTool.CollectSections | Source/InstaLODUI/Private/Tools/InstaLODImposterizeTool.cpp:480-499 | the loop collects exactly the polygon and billboard section lists |
| InstaLODImposterizeTool.ExtractSections | Source/InstaLODUI/Private/Tools/InstaLODImposterizeTool.cpp:522-533 | the extraction loops append the faces of each section in turn |
| InstaLODImposterizeTool.FaceMesh.constructor | Source/InstaLODUI/Private/Tools/InstaLODImposterizeTool.cpp:503 | a mesh holds the faces it is made from |
| InstaLODImposterizeTool.ImposterizeTool.constructor | Source/InstaLODUI/Private/Tools/InstaLODImposterizeTool.cpp:24-35 | the saved options, no auxiliary mesh, and the bake part's defaults changed to no super sampling, opacity page on, masked blending with an opacity mask |
| InstaLODImposterizeTool.ImposterizeTool.ResetSettings | Source/InstaLODUI/Private/Tools/InstaLODImposterizeTool.cpp:622-657 | the reset options; the bake reset followed by the same overrides as the constructor; the auxiliary mesh kept |
| InstaLODImposterizeTool.ImposterizeTool.GetImposterizeSettings | Source/InstaLODUI/Private/Tools/InstaLODImposterizeTool.cpp:659-696 | the SDK settings for the tool's options, bake output and alpha threshold |
| InstaLODImposterizeTool.ImposterizeTool.ReadSettingsFromJSONObject | Source/InstaLODUI/Private/Tools/InstaLODImposterizeTool.cpp:350-464 | corrected (see Findings): the bake options are read from the entry, where the source hands the bake reader the inner "Settings" object; succeeds exactly for an "Imposterize" entry with an object "Settings"; options read over the old ones, then the bake options read from the entry; otherwise nothing changes |
| InstaLODImposterizeTool.ImposterizeTool.CanAppendMeshToInput | Source/InstaLODUI/Private/Tools/InstaLODImposterizeTool.cpp:466-540 | always accepts; for a billboard cloud with a suffix and a polygon section, the polygon faces are appended to the auxiliary mesh and the mesh keeps the billboard faces; otherwise nothing changes |
| InstaLODImposterizeTool.ImposterizeTool.IsMeshOperationExecutable | Source/InstaLODUI/Private/Tools/InstaLODImposterizeTool.cpp:549-595 | corrected (see Findings): built on the corrected vista check; refused without a window; otherwise succeeds exactly when ImposterizeFailure finds no reason for the selection's actors and cameras, reporting that reason when asked |
| InstaLODUVTool.ResetUnwrapOptions | Source/InstaLODUI/Private/Tools/InstaLODUVTool.cpp:150-161 | the header's defaults (1024 by 1024, gutter 5, output channel 0, scale 1); the deterministic flag keeps its value |
| InstaLODUVTool.ReadUnwrapOptions | Source/InstaLODUI/Private/Tools/InstaLODUVTool.cpp:163-220 | the output channel is never read; present strategy and stretch importance are parsed by name, absent ones kept |
| InstaLODUVTool.ReadUnwrapOptionsLaws | Source/InstaLODUI/Private/Tools/InstaLODUVTool.cpp:180-218 | an empty "Settings" object changes nothing, and reading the same object twice equals reading it once |
| InstaLODUVTool.UnwrapSettingsFor | Source/InstaLODUI/Private/Tools/InstaLODUVTool.cpp:33-85 | the strategy converted, the stretch importance converted so that it converts back, the sizes and channel as 32-bit unsigned, the layout post-processing left at the SDK default |
| InstaLODUVTool.ResetMatchesSDKDefaults | Source/InstaLODUI/Private/Tools/InstaLODUVTool.cpp:150-161 | the reset options, when not deterministic, reach the SDK as exactly the SDK's default unwrap settings |
| InstaLODUVTool.FirstEmptyChannel | Source/InstaLODUI/Private/Tools/InstaLODUVTool.cpp:131-143 | the first channel in the range without texture coordinates, all before it non-empty; none when every channel in the range holds coordinates |
| InstaLODUVTool.ClampedOutputChannelBounds | Source/InstaLODUI/Private/Tools/InstaLODUVTool.cpp:128-144 | the clamp only lowers a positive channel and never below 0; the channel it picks holds coordinates or is 0; a channel with every channel up to it filled is kept |
| InstaLODUVTool.UVTool.constructor | Source/InstaLODUI/Private/Tools/InstaLODUVTool.h:33-66 | a fresh base tool with order 6 and no window, holding the options of the saved configuration (every unwrap option is a configuration property) |
| InstaLODUVTool.UVTool.ResetSettings | Source/InstaLODUI/Private/Tools/InstaLODUVTool.cpp:150-161 | the options become ResetUnwrapOptions of the old ones; the base tool is not reset |
| InstaLODUVTool.UVTool.GetUnwrapSettings | Source/InstaLODUI/Private/Tools/InstaLODUVTool.cpp:33-85 | the SDK settings for the tool's options |
| InstaLODUVTool.UVTool.ReadSettingsFromJSONObject | Source/InstaLODUI/Private/Tools/InstaLODUVTool.cpp:163-220 | succeeds exactly for a "UVUnwrap" entry with an object "Settings", then read over the options; otherwise nothing changes |
| InstaLODUVTool.UVTool.ClampTexCoordIndexOutput | Source/InstaLODUI/Private/Tools/InstaLODUVTool.cpp:128-144 | the loop sets the output channel to the clamped channel for the mesh's channel counts and changes nothing else |
| InstaLODMaterialMergeTool.ShellRotationForString | Source/InstaLODUI/Private/Tools/InstaLODMaterialMergeTool.cpp:248-267 | Allow90 exactly for "Allow90" in any case, or when the name matches none and Allow90 was held; a name matching none keeps the current rotation |
| InstaLODMaterialMergeTool.ShellRotationNameRoundTrip | Source/InstaLODUI/Private/Tools/InstaLODMaterialMergeTool.cpp:248-267 | every rotation's name, in any case, reads back as that rotation |
| InstaLODMaterialMergeTool.TextureFilterForString | Source/InstaLODUI/Private/Tools/InstaLODMaterialMergeTool.cpp:272-287 | a name matching none of the three filters keeps the current filter |
| InstaLODMaterialMergeTool.TextureFilterNameRoundTrip | Source/InstaLODUI/Private/Tools/InstaLODMaterialMergeTool.cpp:272-287 | every filter's name, in any case, reads back as that filter |
| InstaLODMaterialMergeTool.ReadMergeOptions | Source/InstaLODUI/Private/Tools/InstaLODMaterialMergeTool.cpp:192-290 | a transfer-mode object reads nothing; super sampling and the deterministic flag are never read; a present shell rotation is parsed by name, an absent one kept |
| InstaLODMaterialMergeTool.ReadTextureFilter | Source/InstaLODUI/Private/Tools/InstaLODMaterialMergeTool.cpp:272-287 | in transfer mode or without the key the filter is kept |
| InstaLODMaterialMergeTool.ReadMergeOptionsLaws | Source/InstaLODUI/Private/Tools/InstaLODMaterialMergeTool.cpp:209-287 | an empty object changes nothing, and reading the same object twice equals reading it once |
| InstaLODMaterialMergeTool.MeshMergeSettingsAsWritten | Source/InstaLODUI/Private/Tools/InstaLODMaterialMergeTool.cpp:124-157 | as written: auto-repack mode, solidified pages, per-fragment binormals, the SDK's default super sampling, the given filter and rotation, each importance converted so that it converts back |
| InstaLODMaterialMergeTool.MergeSuperSamplingIgnored | Source/InstaLODUI/Private/Tools/InstaLODMaterialMergeTool.cpp:124-157 | a tool set to no super sampling still asks for 2x, and x4 gives the same settings as none |
| InstaLODMaterialMergeTool.MeshMergeSettingsFor | Source/InstaLODUI/Private/Tools/InstaLODMaterialMergeTool.cpp:124-157 | the corrected conversion: as written, but with the tool's super sampling passed on |
| InstaLODMaterialMergeTool.MergeSuperSamplingKept | Source/InstaLODUI/Private/Tools/InstaLODMaterialMergeTool.cpp:124-157 | with the correction, equal SDK settings imply equal super sampling choices |
| InstaLODMaterialMergeTool.MaterialMergeTool.constructor | Source/InstaLODUI/Private/Tools/InstaLODMaterialMergeTool.cpp:19-23 | a fresh base tool with order 4, the saved options and the default material settings |
| InstaLODMaterialMergeTool.MaterialMergeTool.ResetSettings | Source/InstaLODUI/Private/Tools/InstaLODMaterialMergeTool.cpp:96-122 | the default options and material settings, then the base tool's reset |
| InstaLODMaterialMergeTool.MaterialMergeTool.GetMaterialMergeSettings | Source/InstaLODUI/Private/Tools/InstaLODMaterialMergeTool.cpp:124-157 | the corrected SDK settings for the tool's options and its material settings' filter |
| InstaLODMaterialMergeTool.MaterialMergeTool.GetToolMaterialProxySettings | Source/InstaLODUI/Private/Tools/InstaLODMaterialMergeTool.cpp:159-190 | every shared property copied from the tool's material settings; the specular texture size left at the engine's default |
| InstaLODMaterialMergeTool.MaterialMergeTool.ReadSettingsFromJSONObject | Source/InstaLODUI/Private/Tools/InstaLODMaterialMergeTool.cpp:192-290 | succeeds exactly for a "MeshMerge" entry with an object "Settings"; then the options and the texture filter are read over the old ones (nothing in transfer mode); otherwise nothing changes |
| InstaLODOcclusionCullTool.ToSDKDataUsage | Source/InstaLODUI/Private/Tools/InstaLODOcclusionCullTool.cpp:193 | the cast by number sends "remove geometry" to the SDK's remove geometry and nothing else there |
| InstaLODOcclusionCullTool.DataUsageCastRange | Source/InstaLODUI/Private/Tools/InstaLODOcclusionCullTool.cpp:193 | the tool's two usages land on the SDK's first two, write-wedge-colours exactly for write-wedge-colours |
| InstaLODOcclusionCullTool.DataUsageForString | Source/InstaLODUI/Private/Tools/InstaLODOcclusionCullTool.cpp:238-254 | "RemoveGeometry" and "WriteWedgeColors" in any case pick their usage, in that order of precedence; any other name keeps the current one |
| InstaLODOcclusionCullTool.DataUsageNameRoundTrip | Source/InstaLODUI/Private/Tools/InstaLODOcclusionCullTool.cpp:238-254 | every usage's name, in any case, reads back as that usage |
| InstaLODOcclusionCullTool.CullingStrategyForString | Source/InstaLODUI/Private/Tools/InstaLODOcclusionCullTool.cpp:255-275 | a name matching none of the three strategies keeps the current strategy |
| InstaLODOcclusionCullTool.CullingStrategyNameRoundTrip | Source/InstaLODUI/Private/Tools/InstaLODOcclusionCullTool.cpp:255-275 | every strategy's name, in any case, reads back as that strategy |
| InstaLODOcclusionCullTool.CullModeForString | Source/InstaLODUI/Private/Tools/InstaLODOcclusionCullTool.cpp:276-292 | "AutomaticInterior" and "CameraBased" in any case pick their mode; any other name keeps the current one |
| InstaLODOcclusionCullTool.CullModeNameRoundTrip | Source/InstaLODUI/Private/Tools/InstaLODOcclusionCullTool.cpp:276-292 | every mode's name, in any case, reads back as that mode |
| InstaLODOcclusionCullTool.ReadCullOptions | Source/InstaLODUI/Private/Tools/InstaLODOcclusionCullTool.cpp:223-297 | an absent key keeps its option; a present mode is parsed by name over the old one |
| InstaLODOcclusionCullTool.ReadCullOptionsLaws | Source/InstaLODUI/Private/Tools/InstaLODOcclusionCullTool.cpp:223-297 | an empty object changes nothing, and reading the same object twice equals reading it once |
| InstaLODOcclusionCullTool.OcclusionCullSettingsFor | Source/InstaLODUI/Private/Tools/InstaLODOcclusionCullTool.cpp:187-206 | mode, strategy, usage, precision, resolution and depth passed on (the last two as 32-bit values); face threshold 1 and back faces ignored; alpha threshold, optimizer weight and the deterministic flag left at the SDK's defaults |
| InstaLODOcclusionCullTool.DeterministicNotPassedOn | Source/InstaLODUI/Private/Tools/InstaLODOcclusionCullTool.cpp:187-206 | two tools that differ only in the deterministic flag produce the same SDK settings |
| InstaLODOcclusionCullTool.OcclusionCullFailure | Source/InstaLODUI/Private/Tools/InstaLODOcclusionCullTool.cpp:75-94 | the base tool's failure wins; otherwise the operation fails exactly for a camera-based cull with no camera |
| InstaLODOcclusionCullTool.OcclusionCullTool.constructor | Source/InstaLODUI/Private/Tools/InstaLODOcclusionCullTool.cpp:31-35 | a fresh base tool with order 5 and no window, holding the given options |
| InstaLODOcclusionCullTool.OcclusionCullTool.ResetSettings | Source/InstaLODUI/Private/Tools/InstaLODOcclusionCullTool.cpp:57-73 | the default options (resolution 1024, depth 5), then the base tool's reset; window and components untouched |
| InstaLODOcclusionCullTool.OcclusionCullTool.GetOcclusionCullSettings | Source/InstaLODUI/Private/Tools/InstaLODOcclusionCullTool.cpp:187-206 | the SDK settings for the tool's current options |
| InstaLODOcclusionCullTool.OcclusionCullTool.IsMeshOperationExecutable | Source/InstaLODUI/Private/Tools/InstaLODOcclusionCullTool.cpp:75-94 | no window: refused without text; otherwise executable exactly when no failure applies, counting the enabled selected cameras, with the failure as text only when text was asked for |
| InstaLODOcclusionCullTool.OcclusionCullTool.ReadSettingsFromJSONObject | Source/InstaLODUI/Private/Tools/InstaLODOcclusionCullTool.cpp:208-300 | succeeds exactly for an "OcclusionCull" entry with an object "Settings", which is then read over the options; otherwise nothing changes |
| InstaLODMeshToolKitTool.FromSDKNormalHealing | Source/InstaLODUI/Private/Tools/InstaLODMeshToolKitTool.cpp:32-44 | every SDK healing mode has a tool mode that converts to it |
| InstaLODMeshToolKitTool.NormalHealingCastIsBijection | Source/InstaLODUI/Private/Tools/InstaLODMeshToolKitTool.cpp:32-44 | the mode conversion is injective and undone by its inverse |
| InstaLODMeshToolKitTool.NormalHealingForString | Source/InstaLODUI/Private/Tools/InstaLODMeshToolKitTool.cpp:209-229 | "Off" in any case turns healing off; a name matching none of the three modes keeps the current one |
| InstaLODMeshToolKitTool.NormalHealingNameRoundTrip | Source/InstaLODUI/Private/Tools/InstaLODMeshToolKitTool.cpp:209-229 | every mode's name, in any case, reads back as that mode |
| InstaLODMeshToolKitTool.ResetToolKitOptions | Source/InstaLODUI/Private/Tools/InstaLODMeshToolKitTool.cpp:112-130 | welding 0, welding normal angle 80, hard angle 80, healing off and weighted normals on; the boundary welding flag keeps its value |
| InstaLODMeshToolKitTool.ReadToolKitOptions | Source/InstaLODUI/Private/Tools/InstaLODMeshToolKitTool.cpp:132-232 | the winding-order conformation is never read; an absent healing mode is kept, a present one parsed by name |
| InstaLODMeshToolKitTool.ReadToolKitOptionsLaws | Source/InstaLODUI/Private/Tools/InstaLODMeshToolKitTool.cpp:132-232 | an empty object changes nothing, and reading the same object twice equals reading it once |
| InstaLODMeshToolKitTool.MeshToolKitSettingsFor | Source/InstaLODUI/Private/Tools/InstaLODMeshToolKitTool.cpp:28-64 | the SDK's deterministic flag keeps its default |
| InstaLODMeshToolKitTool.ToolKitSettingsRoundTrip | Source/InstaLODUI/Private/Tools/InstaLODMeshToolKitTool.cpp:28-64 | every option is copied: the options read back from the SDK settings are the tool's own |
| InstaLODMeshToolKitTool.ResetMatchesSDKDefaults | Source/InstaLODUI/Private/Tools/InstaLODMeshToolKitTool.cpp:112-130 | with boundary welding off, the reset options reach the SDK as exactly its default settings |
| InstaLODMeshToolKitTool.MeshToolKitTool.constructor | Source/InstaLODUI/Private/Tools/InstaLODMeshToolKitTool.cpp:22-26 | a fresh base tool with order 7, the given options and no operation held |
| InstaLODMeshToolKitTool.MeshToolKitTool.ResetSettings | Source/InstaLODUI/Private/Tools/InstaLODMeshToolKitTool.cpp:112-130 | the reset options; the operation is untouched and the base tool's reset is not called |
| InstaLODMeshToolKitTool.MeshToolKitTool.GetMeshToolKitSettings | Source/InstaLODUI/Private/Tools/InstaLODMeshToolKitTool.cpp:28-64 | the SDK settings for the tool's current options |
| InstaLODMeshToolKitTool.MeshToolKitTool.ReadSettingsFromJSONObject | Source/InstaLODUI/Private/Tools/InstaLODMeshToolKitTool.cpp:132-232 | succeeds exactly for a "MeshToolKit" entry with an object "Settings", which is then read over the options; otherwise nothing changes |
| InstaLODMeshToolKitTool.MeshToolKitTool.AllocMeshOperation | Source/InstaLODUI/Private/Tools/InstaLODMeshToolKitTool.cpp:71-105 | only with no operation held; afterwards the new operation is held |
| InstaLODMeshToolKitTool.MeshToolKitTool.DeallocMeshOperation | Source/InstaLODUI/Private/Tools/InstaLODMeshToolKitTool.cpp:234-241 | a held operation is handed back once and forgotten; with none held nothing is handed back |
| InstaLODMeshToolKitTool.MeshToolKitTool.DeallocMeshOperationTwice | Source/InstaLODUI/Private/Tools/InstaLODMeshToolKitTool.cpp:234-241 | two deallocations hand back what one does |
| InstaLODIsotropicRemeshTool.EdgeModeForString | Source/InstaLODUI/Private/Tools/InstaLODIsotropicRemeshTool.cpp:162-182 | "Automatic" in any case picks the automatic mode; a name matching none of the three modes keeps the current one |
| InstaLODIsotropicRemeshTool.EdgeModeNameRoundTrip | Source/InstaLODUI/Private/Tools/InstaLODIsotropicRemeshTool.cpp:162-182 | every edge mode's name, in any case, reads back as that mode |
| InstaLODIsotropicRemeshTool.ReadIsotropicOptionsAsWritten | Source/InstaLODUI/Private/Tools/InstaLODIsotropicRemeshTool.cpp:160-236 | as written: the weighted normals flag follows the "PreserveVolume" key and equals the volume flag whenever that key is present; the collapse threshold is read as an integer |
| InstaLODIsotropicRemeshTool.WeightedNormalsReadFromWrongKey | Source/InstaLODUI/Private/Tools/InstaLODIsotropicRemeshTool.cpp:232-235 | as written, a profile that turns weighted normals off leaves them on, and one that preserves volume turns them on |
| InstaLODIsotropicRemeshTool.ReadIsotropicOptions | Source/InstaLODUI/Private/Tools/InstaLODIsotropicRemeshTool.cpp:160-236 | the corrected reading: the weighted normals flag follows its own key; an absent key keeps its option; a present edge mode is parsed by name |
| InstaLODIsotropicRemeshTool.ReadIsotropicOptionsKeepsFlagsApart | Source/InstaLODUI/Private/Tools/InstaLODIsotropicRemeshTool.cpp:219-235 | with the correction, setting the volume flag leaves weighted normals alone and setting weighted normals leaves the volume flag alone |
| InstaLODIsotropicRemeshTool.ReadIsotropicOptionsLaws | Source/InstaLODUI/Private/Tools/InstaLODIsotropicRemeshTool.cpp:160-236 | an empty object changes nothing, and reading the same object twice equals reading it once |
| InstaLODIsotropicRemeshTool.IsotropicRemeshingSettingsFor | Source/InstaLODUI/Private/Tools/InstaLODIsotropicRemeshTool.cpp:124-143 | the collapse threshold goes from percent to a fraction; precision, UV splits and weighted normals passed on; the deterministic flag left at the SDK's default |
| InstaLODIsotropicRemeshTool.DefaultsMatchSDKDefaults | Source/InstaLODUI/Private/Tools/InstaLODIsotropicRemeshTool.cpp:104-143 | the reset options, 75 percent included, reach the SDK as exactly its default settings |
| InstaLODIsotropicRemeshTool.IsotropicRemeshTool.constructor | Source/InstaLODUI/Private/Tools/InstaLODIsotropicRemeshTool.cpp:19-23 | a fresh base tool with order 8 that freezes transforms for a multi-selection, holding the given options |
| InstaLODIsotropicRemeshTool.IsotropicRemeshTool.ResetSettings | Source/InstaLODUI/Private/Tools/InstaLODIsotropicRemeshTool.cpp:104-122 | the default options (collapse threshold 75, UV splits kept), then the base tool's reset |
| InstaLODIsotropicRemeshTool.IsotropicRemeshTool.GetIsotropicRemeshingSettings | Source/InstaLODUI/Private/Tools/InstaLODIsotropicRemeshTool.cpp:124-143 | the SDK settings for the tool's current options |
| InstaLODIsotropicRemeshTool.IsotropicRemeshTool.ReadSettingsFromJSONObject | Source/InstaLODUI/Private/Tools/InstaLODIsotropicRemeshTool.cpp:145-237 | succeeds exactly for an "IsotropicRemesh" entry with an object "Settings", which is then read (with the corrected key) over the options; otherwise nothing changes |
| InstaLODSettings.ProfileEntry | Source/InstaLODUI/Private/Tools/InstaLODSettings.cpp:203-267 | an entry is handed on only when it carries a "Type" |
| InstaLODSettings.ProfileEntryShape | Source/InstaLODUI/Private/Tools/InstaLODSettings.cpp:203-267 | a profile yields an entry exactly when its "Operation" is the string "MeshOperation" (ignoring case), its "MeshOperation" is an object whose "Entries" is an array of exactly one object, and that object has a "Type" |
| InstaLODSettings.FirstAcceptingFrom | Source/InstaLODUI/Private/Tools/InstaLODSettings.cpp:275-285 | the first tool from the given place on that accepts the entry, with no earlier one accepting; none when no tool from there accepts |
| InstaLODSettings.AcceptingTool | Source/InstaLODUI/Private/Tools/InstaLODSettings.cpp:275-285 | the tool that accepts the entry, or none when no registered tool accepts it |
| InstaLODSettings.AcceptingToolIsUnique | Source/InstaLODUI/Private/Tools/InstaLODSettings.cpp:275-285 | the tools' type names differ even ignoring case, so a tool takes the entry exactly when it accepts it: at most one tool ever does |
| InstaLODSettings.ApplyEntry | Source/InstaLODUI/Private/Tools/InstaLODSettings.cpp:275-285 | corrected (see Findings): the Remesh and Imposterize readers use the corrected bake reading; an entry no tool accepts changes nothing |
| InstaLODSettings.ApplyEntryReachesOneTool | Source/InstaLODUI/Private/Tools/InstaLODSettings.cpp:275-285 | an entry for the UV tool reaches only the UV tool's options, and an entry for the optimize tool leaves the UV tool's options alone |
| InstaLODSettings.SettingsTool.constructor | Source/InstaLODUI/Private/Tools/InstaLODSettings.cpp:362-366 | the settings tool has order 9999 and holds the registered tools in order |
| InstaLODSettings.SettingsTool.OrderId | Source/InstaLODUI/Private/Tools/InstaLODSettings.cpp:282 | the tool at place i has order id i + 1, so its tab is i |
| InstaLODSettings.SettingsTool.ReadSettingsOfTool | Source/InstaLODUI/Private/Tools/InstaLODSettings.cpp:280 | corrected (see Findings): the tools read with their corrected readers; the tool at place i accepts exactly the entries for its type, and then only its own options change |
| InstaLODSettings.SettingsTool.Dispatch | Source/InstaLODUI/Private/Tools/InstaLODSettings.cpp:270-286 | corrected (see Findings): the tools read with their corrected readers; the tools' options become those after the accepting tool's read, and the window shows that tool's tab; with no accepting tool nothing changes |
| InstaLODSettings.SettingsTool.LoadProfile | Source/InstaLODUI/Private/Tools/InstaLODSettings.cpp:161-286 | corrected (see Findings): the tools read with their corrected readers; a profile failing any check changes no tool and no tab; otherwise its single entry is dispatched; the selection is never touched |
| InstaLODScriptSettings.ScriptGetRemeshingSettings | Source/InstaLODUI/Public/Scripting/Settings/InstaLODRemeshSettings.h:95-137 | all three targets copied whatever the chosen one, the resolution level as the tool's pixels, the distinct construction flag passed on, the CPU bake engine and the SDK's default bake output |
| InstaLODScriptSettings.ScriptRemeshingRoundTrip | Source/InstaLODUI/Public/Scripting/Settings/InstaLODRemeshSettings.h:95-137 | for values that fit 32 bits, every property can be read back from the SDK settings: nothing is lost |
| InstaLODScriptSettings.ScriptSendsEveryTarget | Source/InstaLODUI/Public/Scripting/Settings/InstaLODRemeshSettings.h:100-104 | a positive triangle count reaches the SDK even when another target is chosen, and differs from the SDK's default |
| InstaLODScriptSettings.ScriptGetIsotropicRemeshingSettingsAsWritten | Source/InstaLODUI/Public/Scripting/Settings/InstaLODIsotropicRemeshSettings.h:91-110 | as written: the collapse threshold copied without the division by 100, texture coordinate splits always preserved |
| InstaLODScriptSettings.ScriptCollapseThresholdNotScaled | Source/InstaLODUI/Public/Scripting/Settings/InstaLODIsotropicRemeshSettings.h:52-100 | as written, the default 75 percent reaches the SDK as 75, a hundred times the SDK's default 0.75, and differs from what the tool sends |
| InstaLODScriptSettings.ScriptGetIsotropicRemeshingSettings | Source/InstaLODUI/Public/Scripting/Settings/InstaLODIsotropicRemeshSettings.h:91-110 | the corrected conversion: the collapse threshold as a fraction; texture coordinate splits always preserved |
| InstaLODScriptSettings.ScriptIsotropicAgreesWithTool | Source/InstaLODUI/Public/Scripting/Settings/InstaLODIsotropicRemeshSettings.h:91-110 | corrected, the script sends what the tool sends except for the always-kept UV splits, and its defaults reach the SDK as the SDK's own defaults |
| InstaLODScriptSettings.ScriptPreserveUVSplitsIgnored | Source/InstaLODUI/Public/Scripting/Settings/InstaLODIsotropicRemeshSettings.h:102 | the UV split property never reaches the SDK |
| InstaLODScriptSettings.ScriptGetOcclusionCullSettings | Source/InstaLODUI/Public/Scripting/Settings/InstaLODOcclusionCullSettings.h:59-72 | the automatic precision ends as the precision; mode, strategy, usage, resolution and depth passed on; every other field keeps the SDK default |
| InstaLODScriptSettings.ScriptAutomaticPrecisionIgnored | Source/InstaLODUI/Public/Scripting/Settings/InstaLODOcclusionCullSettings.h:64-68 | the automatic precision property has no effect on the result |
| InstaLODScriptSettings.ScriptOcclusionCullAgreesWithTool | Source/InstaLODUI/Public/Scripting/Settings/InstaLODOcclusionCullSettings.h:59-72 | for the same choices the script sends what the tool sends, except that back faces are not ignored and the face threshold keeps the SDK default |
| InstaLODScriptSettings.ImposterizeTypeOrdinal | Source/InstaLODUI/Public/Scripting/Settings/InstaLODImposterizeSettings.h:163 | an imposter type's number is below five |
| InstaLODScriptSettings.ScriptGetImposterizeSettings | Source/InstaLODUI/Public/Scripting/Settings/InstaLODImposterizeSettings.h:159-191 | the type cast by number, never custom geometry, the face factor from percent to a fraction, the CPU bake engine, the SDK's default bake output and alpha mask threshold |
| InstaLODScriptSettings.ScriptImposterizeAgreesWithTool | Source/InstaLODUI/Public/Scripting/Settings/InstaLODImposterizeSettings.h:159-191 | the script sends what the tool sends with the default bake output; a vista script asks for custom geometry without providing any |
| UEColor.PackedTexelBytes | Source/InstaLODUI/Private/Utilities/InstaLODUtilities.cpp:778-797 | a packed texel's alpha is 0xFF when any property is packed; its red, green and blue bytes are the red bytes of metallic, roughness and specular, zero for a property not packed |
| InstaLODMeshReduction.SanitizedValue | Source/InstaLODMeshReduction/Private/InstaLOD/InstaLOD.cpp:203-207 | a finite element is kept; a NaN or infinite one becomes the default |
| InstaLODMeshReduction.SanitizeFloatArray | Source/InstaLODMeshReduction/Private/InstaLOD/InstaLOD.cpp:198-210 | every NaN or infinite element among the first n is replaced by the default, every finite one is kept, and the elements past n are untouched |
| InstaLODMeshReduction.SanitizedValueIsFinite | Source/InstaLODMeshReduction/Private/InstaLOD/InstaLOD.cpp:198-210 | with a finite default, a sanitised element is finite and sanitising it again changes nothing |
| InstaLODMeshReduction.FullChannelsBefore | Source/InstaLODMeshReduction/Private/InstaLOD/InstaLOD.cpp:471-483 | the count of full channels among the first n is at most n |
| InstaLODMeshReduction.RemapTexCoordChannels | Source/InstaLODMeshReduction/Private/InstaLOD/InstaLOD.cpp:470-485 | a channel holding one coordinate per wedge gets the number of full channels before it, every other channel gets INDEX_NONE, and the engine mesh gets as many channels as there are full ones |
| InstaLODMeshReduction.FullChannelsBeforeMonotone | Source/InstaLODMeshReduction/Private/InstaLOD/InstaLOD.cpp:471-483 | later channels never get smaller compact indices |
| InstaLODMeshReduction.FullChannelsBeforeOnto | Source/InstaLODMeshReduction/Private/InstaLOD/InstaLOD.cpp:471-483 | every compact index below the count belongs to a full channel |
| InstaLODMeshReduction.RemapIsCompact | Source/InstaLODMeshReduction/Private/InstaLOD/InstaLOD.cpp:471-483 | the full channels get the indices 0 to count-1, in channel order and each exactly once |
| InstaLODMeshReduction.EmittedTriangles | Source/InstaLODMeshReduction/Private/InstaLOD/InstaLOD.cpp:540-553 | a triangle is emitted exactly when two of its corners never reach the same engine vertex, in ascending order |
| InstaLODMeshReduction.GetSkipSectionsForLODModel | Source/InstaLODMeshReduction/Private/InstaLOD/InstaLOD.cpp:765-793 | none for a null model; otherwise exactly the disabled sections and, for a given LOD, the sections generated only up to an earlier LOD, in ascending order |
| InstaLODMeshReduction.ValidSectionIndices | Source/InstaLODMeshReduction/Private/InstaLOD/InstaLOD.cpp:803-811 | exactly the sections not skipped, in ascending order |
| InstaLODMeshReduction.SkippedIndexOffset | Source/InstaLODMeshReduction/Private/InstaLOD/InstaLOD.cpp:1168-1182 | the vertex count of the skipped sections before the given one; 0 for the first section |
| InstaLODMeshReduction.VerticesBeforeSplit | Source/InstaLODMeshReduction/Private/InstaLOD/InstaLOD.cpp:1168-1182 | every vertex before a section belongs to a skipped or to a kept section |
| InstaLODMeshReduction.SkippedIndexOffsetRebasesVertices | Source/InstaLODMeshReduction/Private/InstaLOD/InstaLOD.cpp:1184-1195 | for sections laid out one after the other, subtracting the offset from a kept section's vertex index gives that vertex's place in the SDK mesh, which is within the kept vertices |
| InstaLODMeshReduction.KeptVerticesMonotone | Source/InstaLODMeshReduction/Private/InstaLOD/InstaLOD.cpp:1168-1182 | later sections start no earlier among the kept vertices |
| InstaLODMeshReduction.ImportedBoneData | Source/InstaLODMeshReduction/Private/InstaLOD/InstaLOD.cpp:1135-1144 | a zero-weight slot gets the default bone data; otherwise the bone goes through the section's bone map and the weight is its fraction of 255, between 0 and 1 |
| InstaLODMeshReduction.ImportBoneData | Source/InstaLODMeshReduction/Private/InstaLOD/InstaLOD.cpp:1135-1144 | one bone data per influence slot, each as above, over the engine's `MAX_TOTAL_INFLUENCES` slots of a vertex |
| InstaLODMeshReduction.ExportedInfluences | Source/InstaLODMeshReduction/Private/InstaLOD/InstaLOD.cpp:1293-1326 | at most one influence per slot, each with a valid bone and a weight of at least 1/250 |
| InstaLODMeshReduction.ExportInfluences | Source/InstaLODMeshReduction/Private/InstaLOD/InstaLOD.cpp:1289-1330 | nothing without skinning data; otherwise the kept slots of every vertex, vertex after vertex, in slot order; the loop reads `MAX_TOTAL_INFLUENCES` slots per vertex, so the mesh must carry that many per vertex, as the import's `Initialize` (line 829) gives it |
| InstaLODMeshReduction.ImportedInfluenceKept | Source/InstaLODMeshReduction/Private/InstaLOD/InstaLOD.cpp:1135-1144 | a slot imported from an engine weight comes back on export exactly when its weight is at least 2/255: a weight of 1/255 is lost |
| InstaLODMeshReduction.FlippedIndex | Source/InstaLODMeshReduction/Private/InstaLOD/InstaLOD.cpp:2257-2258 | the corrected mirror: the pixel in the same column and the mirrored row, within the page |
| InstaLODMeshReduction.FlippedIndexAsWritten | Source/InstaLODMeshReduction/Private/InstaLOD/InstaLOD.cpp:2258 | as written: the row index computed from the width in 32-bit unsigned arithmetic |
| InstaLODMeshReduction.FlippedIndexAsWrittenOnSquarePages | Source/InstaLODMeshReduction/Private/InstaLOD/InstaLOD.cpp:2258 | on a square page the index as written is the mirrored pixel |
| InstaLODMeshReduction.FlippedIndexAsWrittenLeavesPage | Source/InstaLODMeshReduction/Private/InstaLOD/InstaLOD.cpp:2258 | as written, a 2x1 page reads its first pixel from past the end, and a 1x2 page wraps to the top of the 32-bit range |
| InstaLODMeshReduction.RowMajor | Source/InstaLODMeshReduction/Private/InstaLOD/InstaLOD.cpp:2253-2257 | a row-major position splits into a column below the width and a row below the height |
| InstaLODMeshReduction.FlippedPixel | Source/InstaLODMeshReduction/Private/InstaLOD/InstaLOD.cpp:2253-2258 | the source pixel of a mirrored position lies within the page |
| InstaLODMeshReduction.FlipVertically | Source/InstaLODMeshReduction/Private/InstaLOD/InstaLOD.cpp:2268-2308 | a page of the same size whose every pixel is its mirrored pixel |
| InstaLODMeshReduction.FlippedPixelInvolution | Source/InstaLODMeshReduction/Private/InstaLOD/InstaLOD.cpp:2268-2308 | mirroring a position twice gives it back |
| InstaLODMeshReduction.FlipVerticallyInvolution | Source/InstaLODMeshReduction/Private/InstaLOD/InstaLOD.cpp:2268-2308 | for every page shape, sending a page with the copy to the SDK and reading it back with the 8-bit copy gives the page that was sent |
| InstaLODMeshReduction.Channel16To8 | Source/InstaLODMeshReduction/Private/InstaLOD/InstaLOD.cpp:2260-2262 | a 16-bit channel scaled by 255/65535: 0 exactly below 257 and 255 exactly for 65535 |
| InstaLODMeshReduction.Color16To8 | Source/InstaLODMeshReduction/Private/InstaLOD/InstaLOD.cpp:2260-2263 | every colour channel scaled, alpha 255 |
| InstaLODMeshReduction.CopyColorArray16 | Source/InstaLODMeshReduction/Private/InstaLOD/InstaLOD.cpp:2247-2266 | with the corrected row index, a page of the same size, mirrored, with every colour scaled to 8 bits and opaque |
| InstaLODMeshReduction.CopyColorArray8 | Source/InstaLODMeshReduction/Private/InstaLOD/InstaLOD.cpp:2268-2287 | with the corrected row index, the page mirrored top to bottom |
| InstaLODMeshReduction.CopyColorArray | Source/InstaLODMeshReduction/Private/InstaLOD/InstaLOD.cpp:2289-2308 | with the corrected row index, the SDK buffer holds the page mirrored top to bottom |
| InstaLODMeshReduction.SetColorArrayToConstant | Source/InstaLODMeshReduction/Private/InstaLOD/InstaLOD.cpp:2310-2319 | the page becomes a single texel of the given colour |
| InstaLODMeshReduction.EngineImportance | Source/InstaLODMeshReduction/Private/InstaLOD/InstaLOD.cpp:671-690 | each engine level becomes the SDK level of the same number; any other value becomes Normal |
| InstaLODMeshReduction.EngineImportanceInjective | Source/InstaLODMeshReduction/Private/InstaLOD/InstaLOD.cpp:671-690 | distinct engine levels stay distinct |
| InstaLODMeshReduction.StaticMeshOptimizeSettings | Source/InstaLODMeshReduction/Private/InstaLOD/InstaLOD.cpp:692-715 | no screen size; a non-positive deviation falls back to the console default; High silhouette sent as Normal; optimizer weights exactly when forced or the silhouette is at least High; skinning and skeleton settings left at the SDK defaults |
| InstaLODMeshReduction.SilhouetteHighSentAsNormal | Source/InstaLODMeshReduction/Private/InstaLOD/InstaLOD.cpp:702-712 | High and Normal silhouette send the same level; only the optimizer weights tell them apart, unless forced |
| InstaLODMeshReduction.SkeletalMeshOptimizeSettings | Source/InstaLODMeshReduction/Private/InstaLOD/InstaLOD.cpp:1531-1568 | the maximum deviation method sends no percentage and the given deviation, the others the percentage and the console default; influence threshold 1/250; the bone limit as a 32-bit value |
| InstaLODMeshReduction.SkeletalThresholdMatchesExportFilter | Source/InstaLODMeshReduction/Private/InstaLOD/InstaLOD.cpp:1537 | an influence the SDK keeps under the skeletal threshold passes the export filter |
| InstaLODMeshReduction.BiasedPageSize | Source/InstaLODMeshReduction/Private/InstaLOD/InstaLOD.cpp:2813-2833 | normal pages keep the full size, diffuse half of it but at least 32, every other page a quarter but at least 16 |
| InstaLODMeshReduction.BiasedPageSizesOrdered | Source/InstaLODMeshReduction/Private/InstaLOD/InstaLOD.cpp:2813-2833 | below 64 the lower bounds apply; from 64 on no page exceeds the normal page and property pages do not exceed the diffuse page |
| InstaLODUtilities.GetPotentialParamNames | Source/InstaLODUI/Private/Utilities/InstaLODUtilities.cpp:451-467 | Anisotropy, Tangent and SubSurface offer no name; every other property offers its own name, last, and Diffuse and Emissive offer "BaseColor" and "EmissiveColor" before it; no property offers more than two |
| InstaLODUtilities.GetConstantParamType | Source/InstaLODUI/Private/Utilities/InstaLODUtilities.cpp:469-490 | a constant property is written as a vector exactly for Diffuse and Emissive, and no parameter is written exactly for the properties that offer no name and for Normal |
| InstaLODUtilities.ParamNamesIdentifyProperty | Source/InstaLODUI/Private/Utilities/InstaLODUtilities.cpp:451-490 | no parameter name is offered for two properties; a vector property offers two names and a scalar property exactly one |
| InstaLODUtilities.CalculatePackedTextureData | Source/InstaLODUI/Private/Utilities/InstaLODUtilities.cpp:567-616 | the sample count and size come from Metallic when it matches Roughness or Specular in size, else from Roughness when Roughness matches Specular, else the caller's count is kept and the size untouched; a property is packed exactly when it is baked, has that many samples and the count is not zero; packing happens exactly when at least two are packed |
| InstaLODUtilities.PackedPropertiesShareSampleCount | Source/InstaLODUI/Private/Utilities/InstaLODUtilities.cpp:567-616 | when packing is chosen the sample count is positive and two properties are packed; three baked properties of one size and one sample count are all packed |
| InstaLODUtilities.MergedUpToIsPackedTexel | Source/InstaLODUI/Private/Utilities/InstaLODUtilities.cpp:783-797 | after the three properties have been walked, a texel is the packed texel of the merged samples |
| InstaLODUtilities.MergedTexelChannels | Source/InstaLODUI/Private/Utilities/InstaLODUtilities.cpp:768-799 | a merged texel's alpha is 0xFF when any property was merged, and its red, green and blue bytes are the red bytes of the merged Metallic, Roughness and Specular samples, zero for one not merged |
| InstaLODUtilities.MergePackedTexture | Source/InstaLODUI/Private/Utilities/InstaLODUtilities.cpp:768-799 | the merged texture has one texel per shared sample, each being the zeroed texel with every merged property's contribution ORed in, property by property |
| InstaLODUtilities.MergePackedProperty | Source/InstaLODUI/Private/Utilities/InstaLODUtilities.cpp:787-797 | one merged property's pass turns every texel merged up to the properties before it into the texel merged up to and including it |
| InstaLODUtilities.IllegalCharacterMissedAsWritten | Source/InstaLODUI/Private/Utilities/InstaLODUtilities.cpp:2047-2064 | as written, the path " " is not reported although a space is in the invalid list, when 29 non-NUL characters follow it in memory |
| InstaLODUtilities.DoesSavePathContainIllegalCharacters | Source/InstaLODUI/Private/Utilities/InstaLODUtilities.cpp:2052-2064 | true exactly when some character of the path is in the invalid list |
| InstaLODUtilities.GetValidSavePath | Source/InstaLODUI/Private/Utilities/InstaLODUtilities.cpp:2026-2045 | the result is the path with a prefix of 0, 1, 5 or 6 characters removed, and a path starting with neither "/" nor "Game/" is returned unchanged |
| InstaLODUtilities.ValidSavePathOfContentPath | Source/InstaLODUI/Private/Utilities/InstaLODUtilities.cpp:2026-2045 | "/Game/p", "Game/p", "/p" and p all become p, for a p relative to the content folder |
| InstaLODUtilities.CandidatesDistinct | Source/InstaLODUI/Private/Utilities/InstaLODUtilities.cpp:2013-2019 | numbered alternatives with different numbers differ even ignoring case |
| InstaLODUtilities.DropCandidateNumber | Source/InstaLODUI/Private/Utilities/InstaLODUtilities.cpp:2015-2018 | removing the number of an alternative gives back the stem it was built from |
| InstaLODUtilities.PathNameSet.constructor | Source/InstaLODUI/Private/Utilities/InstaLODUtilities.cpp:1986 | the set starts with the names the caller holds |
| InstaLODUtilities.EnsureSavePathIsUniqueForEntry | Source/InstaLODUI/Private/Utilities/InstaLODUtilities.cpp:1986-2024 | the path found was not in the set (ignoring case); it is the initial path when that was free, and otherwise the first numbered alternative not in the set; the set gains exactly that path |
| InstaLODUtilities.PlaneCheckAdmitsZeroHeight | Source/InstaLODUI/Private/Utilities/InstaLODUtilities.cpp:1779-1780 | a plane of zero height passes the check as written but not the intended check, and the aspect ratio computed next divides by that height |
| InstaLODUtilities.PlaneCheckedExtentsGiveRatio | Source/InstaLODUI/Private/Utilities/InstaLODUtilities.cpp:1779-1780 | under the intended check of both extents, the height is not zero and the aspect ratio is defined and not zero |
| InstaLODUtilities.PlaneTexCoordDimensions | Source/InstaLODUI/Private/Utilities/InstaLODUtilities.cpp:1780-1792 | with a positive aspect ratio, both texture-coordinate extents lie in (0, 1], one of them is 1, and their ratio is the plane's |
| InstaLODUtilities.CreatePlane | Source/InstaLODUI/Private/Utilities/InstaLODUtilities.cpp:1738-1819 | the plane is a valid mesh of four corners at plus and minus the extents, two triangles (0, 1, 2) and (2, 1, 3), upward normals and material, submesh and smoothing group 0, under the corrected extents check; the first texture-coordinate channel spans the plane's aspect ratio wedge by wedge as in lines 1793-1798, the other channels and the colour sets are empty, and the tangents and binormals are the ones given |
| InstaLODUtilities.StaticMesh.constructor | Source/InstaLODUI/Private/Utilities/InstaLODUtilities.cpp:1349 | the mesh starts with the given source models, LOD group and materials |
| InstaLODUtilities.StaticTargetLODIndex | Source/InstaLODUI/Private/Utilities/InstaLODUtilities.cpp:1356-1383 | an existing LOD is written in place; a request past the end or a negative request with no LOD there appends; a negative request means one past the LODs before the LOD group was baked |
| InstaLODUtilities.LODGroupSourceModels | Source/InstaLODUI/Private/Utilities/InstaLODUtilities.cpp:1365-1374 | after baking a LOD group, every LOD keeps its mesh and takes the build settings of LOD 0 |
| InstaLODUtilities.ImportedBuildSettings | Source/InstaLODUI/Private/Utilities/InstaLODUtilities.cpp:1434-1439 | an inserted LOD takes the base LOD's build settings with normals, tangents and degenerates not recomputed and a unit build scale |
| InstaLODUtilities.InsertedSourceModels | Source/InstaLODUI/Private/Utilities/InstaLODUtilities.cpp:1377-1439 | an existing LOD is replaced or one is appended, every other LOD is kept, and the written LOD holds the mesh's face materials with the imported build settings |
| InstaLODUtilities.InsertLODToStaticMesh | Source/InstaLODUI/Private/Utilities/InstaLODUtilities.cpp:1349-1440 | a LOD group is baked first and cleared; the mesh is written at the target LOD; with a new material the material is appended and every face moved to it, without one the materials and faces are unchanged |
| InstaLODUtilities.RemoveAllLODsFromStaticMesh | Source/InstaLODUI/Private/Utilities/InstaLODUtilities.cpp:1924-1936 | only LOD 0 is left and nothing else changes; a null mesh is ignored |
| InstaLODUtilities.SkeletalMesh.constructor | Source/InstaLODUI/Private/Utilities/InstaLODUtilities.cpp:1525 | the mesh starts with the given LOD models and infos, one info per model at least |
| InstaLODUtilities.SkeletalTargetLODIndex | Source/InstaLODUI/Private/Utilities/InstaLODUtilities.cpp:1539-1542 | a target within the LOD models (or one past them) is kept; a negative target or one further past becomes the number of LOD models |
| InstaLODUtilities.RebasedLODInfo | Source/InstaLODUI/Private/Utilities/InstaLODUtilities.cpp:1547-1562 | a LOD other than the target that was reduced from the target is reduced from LOD 0 instead; nothing else changes |
| InstaLODUtilities.InsertedLODInfosProperties | Source/InstaLODUI/Private/Utilities/InstaLODUtilities.cpp:1544-1609 | there is one more info exactly when the target had none; the target's info copies LOD max(t-1, 0) with fresh reduction settings and half its screen size (0.5 for none), which is positive; every other info is kept except re-basing, after which no LOD is reduced from a replaced target |
| InstaLODUtilities.InsertLODToSkeletalMesh | Source/InstaLODUI/Private/Utilities/InstaLODUtilities.cpp:1525-1609 | without the SDK or the mesh nothing changes; otherwise the LOD model at the target is replaced or appended and the infos are as the insertion rules say, one info per model at least |
| InstaLODUtilities.RemoveAllLODsFromSkeletalMesh | Source/InstaLODUI/Private/Utilities/InstaLODUtilities.cpp:1938-1967 | only the first LOD model and the first LOD info are left; a null mesh is ignored |
| InstaLODUtilities.ObjectArray.constructor | Source/InstaLODUI/Private/Utilities/InstaLODUtilities.cpp:2108 | the output array starts empty |
| InstaLODUtilities.Relative | Source/InstaLODUI/Private/Utilities/InstaLODUtilities.cpp:2158-2160 | a position is clamped to [0, 1] and mapped onto [-1, 1], the inverse of mapping [-1, 1] back |
| InstaLODUtilities.PivotPlacementFor | Source/InstaLODUI/Private/Utilities/InstaLODUtilities.cpp:2138-2165 | only the custom position is taken as it is; the presets and the limited position are relative to the bounds and lie in [-1, 1] |
| InstaLODUtilities.PivotPresetsAreLimitedPositions | Source/InstaLODUI/Private/Utilities/InstaLODUtilities.cpp:2140-2151 | the centre, top and bottom presets are the limited positions at the centre, the top face and the bottom face |
| InstaLODUtilities.FinalizedObject | Source/InstaLODUI/Private/Utilities/InstaLODUtilities.cpp:2119-2181 | inserting as a LOD returns the entry; returning a new object gives a static mesh component for a static mesh, with a pivot placement exactly when freezing with a pivot other than the default, and a skeletal mesh component otherwise |
| InstaLODUtilities.FinalizeScriptProcessResult | Source/InstaLODUI/Private/Utilities/InstaLODUtilities.cpp:2108-2189 | succeeds exactly when the entry, the SDK, the output mesh and the result settings are there and the entry is a static or skeletal mesh; a failure leaves the output alone, a success appends the finalized object |
| InstaLODScriptWrapper.ValidEntriesAreFinalizable | Source/InstaLODUI/Private/Scripting/InstaLODScriptWrapper.cpp:189-204 | an entry is valid exactly when it is not null and is a static or skeletal mesh, which is what finalizing a result accepts |
| InstaLODScriptWrapper.CorrectedLODIndices | Source/InstaLODUI/Private/Scripting/InstaLODScriptWrapper.cpp:127-180 | a base index that names no LOD becomes 0; a target that is not accepted (LOD 0 or past one beyond the end for a static mesh, an existing LOD for a skeletal mesh) becomes the number of LODs |
| InstaLODScriptWrapper.CorrectedLODIndicesSettle | Source/InstaLODUI/Private/Scripting/InstaLODScriptWrapper.cpp:127-180 | correcting corrected indices changes nothing, and corrected indices are accepted exactly when the entry has a LOD |
| InstaLODScriptWrapper.EvaluateResultBaseAndTargetLODIndex | Source/InstaLODUI/Private/Scripting/InstaLODScriptWrapper.cpp:127-181 | the indices come back corrected, and the answer is true exactly when neither needed correcting; an entry of another type is refused and changes nothing |
| InstaLODScriptWrapper.CorrectedSkeletalTargetAppends | Source/InstaLODUI/Private/Scripting/InstaLODScriptWrapper.cpp:165-170 | a corrected skeletal target, inserted into a mesh whose LOD models all have infos, appends a new LOD model |
| InstaLODScriptWrapper.GenerateCloudPolygonalMesh | Source/InstaLODUI/Private/Scripting/InstaLODScriptWrapper.cpp:47-117 | fails exactly without the mesh, the cloud mesh or the SDK; an empty suffix or no cloud material changes nothing; otherwise the faces of materials whose names end with the suffix are appended to the cloud mesh and the mesh keeps the faces of the other materials |
| InstaLODScriptWrapper.CloudSplitPartitionsFaces | Source/InstaLODUI/Private/Scripting/InstaLODScriptWrapper.cpp:66-113 | the split loses and invents no face, and each face lands on the side its material's name says |
| InstaLODScriptWrapper.ScriptResult.constructor | Source/InstaLODUI/Public/Scripting/InstaLODScriptResult.h:25-29 | a script result starts with no objects |
| InstaLODScriptWrapper.RunEntriesExtendsResults | Source/InstaLODUI/Private/Scripting/InstaLODScriptWrapper.cpp:246-257 | a run keeps the results it started with and only appends; a run over invalid entries only changes nothing |
| InstaLODScriptWrapper.RunEntriesSettlesIndices | Source/InstaLODUI/Private/Scripting/InstaLODScriptWrapper.cpp:251-256 | after a valid entry with a LOD, the indices carried on are accepted by that entry |
| InstaLODScriptWrapper.ScriptOperation.constructor | Source/InstaLODUI/Private/Scripting/InstaLODScriptWrapper.cpp:214-220 | the operation holds the entries, the base LOD index and the target LOD index it is given |
| InstaLODScriptWrapper.ScriptOperation.ExecuteAsWritten | Source/InstaLODUI/Private/Scripting/InstaLODScriptWrapper.cpp:238-261 | as written, the indices are corrected entry by entry, but the results are overwritten with an empty array at the end |
| InstaLODScriptWrapper.ExecuteAsWrittenDropsResults | Source/InstaLODUI/Private/Scripting/InstaLODScriptWrapper.cpp:238-261 | a valid static mesh whose operation fails adds a null to the results, so the overwrite discards a non-empty result |
| InstaLODScriptWrapper.ExecuteDropsCallbackResults | Source/InstaLODUI/Private/Scripting/InstaLODScriptWrapper.cpp:238-261 | on that one entry, `Execute` as written hands back no results, while the corrected `Execute` hands back the null the callback added |
| InstaLODScriptWrapper.ScriptOperation.Execute | Source/InstaLODUI/Private/Scripting/InstaLODScriptWrapper.cpp:238-261 | corrected (see Findings): the results the callbacks add are kept, where the source overwrites them with an empty array; the indices are corrected entry by entry, and the results are the earlier ones followed by what the callback adds for each valid entry, in order |
| InstaLODScriptWrapper.ScriptOperation.RunAll | Source/InstaLODUI/Private/Scripting/InstaLODScriptWrapper.cpp:246-257 | the loop over the entries: skips an invalid entry, corrects the indices for a valid one and appends the callback's objects |

## Left out

- The SDK's optimisation, remeshing, unwrapping, baking and occlusion algorithms: they are in the proprietary InstaLOD library, and only their settings structs and the mesh validity contract are modelled.
- Module loading, licensing and authorisation, console variables, the Slate user interface, progress callbacks, logging and asset saving: these are engine services, I/O or user interface. Dialog answers, whether a folder exists and console variable values are parameters.
- The conversions between engine meshes and InstaLOD meshes (mesh descriptions, skeletal LOD models, cloth unbinding), `GenerateLodsInPackage`, the MikkTSpace tangent pass and `CreateFlattenMaterialInstance` beyond its texture packing: these are foreign engine and SDK calls. Their results are parameters, and a mesh is reduced to the attributes the plugin's own code reads or writes.
- Floating-point rounding: floats are exact reals. The camera and transform geometry of the occlusion and vista operations, and the effect of a pivot move on the mesh, are not modelled; only the pivot placement chosen is.
- `InstaLODSettings.cpp` beyond `LoadProfile` (clearing LODs from the selection, resetting all tools, authorisation): these are editor commands and licensing. Reading the profile file from disk is not modelled; `LoadProfile` starts from the parsed JSON.
- The script-side settings headers that only copy fields one-to-one (unwrap, mesh toolkit, result settings), and the script wrapper's per-operation callbacks beyond the hand-over of their result: each callback is a pure function parameter of the operation, and the `bSuccess` flag of a script result is not modelled.
- JSON key lookup is exact, while the engine's JSON objects compare keys ignoring case. A field of the wrong kind reads as the engine's default for that kind (empty string, zero, false, empty object).
- `FCString::Atof` is modelled for plain decimal notation only (sign, digits, point, digits). Exponents, infinities and hexadecimal forms are not modelled.
- The definition of `EInstaLODImposterizeType` is not part of this model. Its values are taken to be AABB, Billboard, HybridBillboardCloud, Flipbook and Vista, in that order.
- The occlusion cull tool's alpha mask threshold is guarded by a macro that the plugin never defines, so it is not modelled. The `FFlattenMaterial` flags other than "contains data" and "is constant" are not modelled either.
- The skeleton optimisation of the skeletal mesh settings is compiled out in the plugin and is not modelled.
- InstaLODUtilities.InsertLODToStaticMesh: the mesh written into the LOD is reduced to its face material indices, and the material slot name maps are not modelled.
- InstaLODUtilities.InsertLODToSkeletalMesh: the new LOD model is an opaque identity, and a material inserted for a skeletal LOD is not modelled.
- InstaLODUtilities.FinalizeScriptProcessResult: only the object appended to the output array and the pivot placement are modelled, not the mesh written into the entry or into the new mesh.
- InstaLODUtilities.GetValidSavePath: the engine's `NormalizeFilename` and `NormalizeDirectoryName` are not modelled. The function takes the path after them, and the check for a non-empty path is on the caller's side.
- InstaLODUtilities.CreatePlane: the tangents and binormals come from the SDK's MikkTSpace pass and are parameters. The plane requires the corrected extents check.
- InstaLODMeshReduction.MaxTotalInfluences: the engine's `MAX_TOTAL_INFLUENCES` lives in engine headers outside this model; it is taken as 12, the value of the engine release the plugin is built for.

## Findings

| source | as written | input that shows it | evidently intended | confidence | as-written member | corrected member |
|---|---|---|---|---|---|---|
| Source/InstaLODMeshReduction/Private/InstaLOD/InstaLOD.cpp:2258 | the flipped row of `CopyColorArray16`, `CopyColorArray8` and `CopyColorArray` (also lines 2279 and 2300) is `Width - (Y + 1)`, and the row stride is `Width` | a page 2 wide and 1 high reads index 2 for pixel (0, 0), past its 2 pixels; a page 1 wide and 2 high wraps to 0xFFFFFFFF for pixel (0, 1) | the row `Height - (Y + 1)`, a vertical mirror of the page | high (not executed) | InstaLODMeshReduction.FlippedIndexAsWrittenLeavesPage | InstaLODMeshReduction.FlipVerticallyInvolution |
| Source/InstaLODUI/Private/Utilities/InstaLODUtilities.cpp:2059 | each character of the path is passed by address to `FString::Contains`, which reads it as a string up to the next NUL | the path " " with 29 non-NUL characters behind it in memory is not reported, although a space is invalid | true exactly when some character of the path is in the invalid list | high (not executed) | InstaLODUtilities.IllegalCharacterMissedAsWritten | InstaLODUtilities.DoesSavePathContainIllegalCharacters |
| Source/InstaLODUI/Private/Tools/InstaLODRemeshTool.cpp:377 | the remesh tool (and the imposterize tool, at InstaLODImposterizeTool.cpp:461) hands its inner "Settings" object to the bake reader, which looks for "Settings" inside it | an entry whose "Settings" holds "BakeOutputSettings" with the opacity page enabled leaves the opacity page off | the bake reader is given the entry itself | medium (not executed) | InstaLODBakeBaseTool.SettingsObjectBakeOptionsLost | InstaLODBakeBaseTool.BakeOptionsFromEntry |
| Source/InstaLODUI/Public/Scripting/Settings/InstaLODMaterialSettings.h:286 | the ambient occlusion sample count is taken from `ThicknessSampleCount` | an ambient occlusion sample count of 64 with the default thickness count yields 32 | each sample count comes from its own property | high (not executed) | InstaLODMaterial.AmbientOcclusionSampleCountIgnored | InstaLODMaterial.ScriptGetBakeOutputSettings |
| Source/InstaLODUI/Private/Tools/InstaLODBaseTool.cpp:229-232 | the LOD group dialog lists every selected component through its static mesh component | a static mesh with a LOD group selected together with a skeletal mesh reads the skeletal entry's null static mesh component | the dialog lists the static meshes that have a LOD group | high (not executed) | InstaLODBaseTool.LODGroupDialogReadsNullComponent | InstaLODBaseTool.LODGroupDialogLines |
| Source/InstaLODUI/Private/Tools/InstaLODOptimizeTool.cpp:292-296 | `BoundaryImportance` is read and reset but never passed to the SDK settings | boundary importance Highest and Off give the same SDK settings, with the SDK default Normal | the boundary importance is passed on like the four other importances | medium (not executed) | InstaLODOptimizeTool.BoundaryImportanceIgnored | InstaLODOptimizeTool.BoundaryImportanceHonoured |
| Source/InstaLODUI/Private/Tools/InstaLODImposterizeTool.cpp:584 | the vista executability check accepts any number of cameras above zero | one actor and two cameras pass the check, but the vista construction (InstaLODImposterizeTool.cpp:63) requires exactly one camera | exactly one camera and at least one actor | medium (not executed) | InstaLODImposterizeTool.VistaCheckAcceptsTwoCameras | InstaLODImposterizeTool.VistaCheckCorrected |
| Source/InstaLODUI/Private/Tools/InstaLODMaterialMergeTool.cpp:124-157 | `GetMaterialMergeSettings` never sets the super sampling the tool holds | super sampling None and X4 give the same SDK settings, with the SDK default X2 | the tool's super sampling is passed on, as in the bake tools | medium (not executed) | InstaLODMaterialMergeTool.MergeSuperSamplingIgnored | InstaLODMaterialMergeTool.MergeSuperSamplingKept |
| Source/InstaLODUI/Private/Tools/InstaLODIsotropicRemeshTool.cpp:232-235 | the weighted normals flag is read from the "PreserveVolume" key | a profile with "WeightedNormals": false leaves the flag true; "PreserveVolume": true sets it | the flag is read from "WeightedNormals" | high (not executed) | InstaLODIsotropicRemeshTool.WeightedNormalsReadFromWrongKey | InstaLODIsotropicRemeshTool.ReadIsotropicOptionsKeepsFlagsApart |
| Source/InstaLODUI/Public/Scripting/Settings/InstaLODIsotropicRemeshSettings.h:100 | the collapse threshold percentage is copied without dividing by 100 | the default 75 becomes a threshold of 75.0 where the tool passes 0.75 | the percentage is divided by 100, as in the tool | high (not executed) | InstaLODScriptSettings.ScriptCollapseThresholdNotScaled | InstaLODScriptSettings.ScriptIsotropicAgreesWithTool |
| Source/InstaLODUI/Private/Utilities/InstaLODUtilities.cpp:1779 | `CreatePlane` checks that the first extent is not nearly zero, twice | extents (1, 0) pass the check, and the aspect ratio computed next divides by zero | both extents are checked | high (not executed) | InstaLODUtilities.PlaneCheckAdmitsZeroHeight | InstaLODUtilities.PlaneCheckedExtentsGiveRatio |
| Source/InstaLODUI/Private/Scripting/InstaLODScriptWrapper.cpp:259 | `Execute` overwrites the script's results with a local array that nothing fills, after the callbacks have appended to them | one valid static mesh whose operation fails appends a null, which the overwrite discards | the results keep what the callbacks appended | high (not executed) | InstaLODScriptWrapper.ExecuteAsWrittenDropsResults | InstaLODScriptWrapper.ScriptOperation.Execute |
