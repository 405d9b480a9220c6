# Materials: binding table and value types, in Dafny

This project models the core of the `materials` library. A material is a host entity that carries:

- a material component: shader references, blend, depth and flag settings;
- three append-only binding arrays. Push constants say where each component's data sits in the push-constant block. Entity-component bindings say which entity feeds the shader resource at a descriptor key. Texture bindings say which texture is sampled at a key.

It also models the value types those arrays and settings are built from:

- `DescriptorResourceKey`, a (binding, set) pair packed into one byte, with a `binding:set` text form;
- `TextureBinding`, whose setters count real changes in a version;
- `DepthSettings`, `BlendSettings` and `StencilSettings`, with their presets;
- `PushConstantBinding` and `EntityComponentBinding`;
- the 5-field `IsMaterial` component.

Layout, one module per source type:

- `numeric.dfy` (`Numeric`): C# `byte`, `sbyte`, `int` and `uint` over unbounded integers. Unchecked 32-bit wrap-around, `uint` increment and bitwise or are written out.
- `hashing.dfy` (`Hashing`): the hand-written 17/31 hash fold. It is proved equal to a polynomial reduced modulo 2^32. Since 31 is invertible modulo 2^32, a fold that sees one field change by a non-multiple of 2^32 always changes.
- `enums.dfy` (`Wrappers`, `Enums`): `Option`/`Result`, and the enums with their underlying codes.
- `descriptor_resource_key.dfy` (`DescriptorKeys`): packing, equality, hash, text form, `TryParse`/`Parse`.
- `texture_binding.dfy` (`Textures`), `depth_settings.dfy` (`Depth`), `blend_settings.dfy` (`Blend`), `stencil_settings.dfy` (`Stencil`), `push_constant_binding.dfy` (`PushConstants`), `entity_component_binding.dfy` (`ComponentBindings`), `is_material.dfy` (`MaterialComponent`).
- `material.dfy` (`Materials`): the `Material` class.

C# structs have value semantics, so their mutators become functions that return the updated value. `TextureBinding.SetTexture` and the `DepthSettings` flag setters are examples. The material entity's arrays are edited in place, so `Material` is a class. Its arrays are `seq` fields, and its operations are methods with the source's loops. Each method is proved against a specification function: first match, running sum or retargeted table. Each function's meaning is then proved as lemmas.

Debug-only guards (`[Conditional("DEBUG")]` `ThrowIf…` in source/Material.cs) become `requires` clauses. A release-build throw becomes an `Option` or `Result` error value.

Adding a push constant does not bump the material's version: the code accumulates a hash in its loop and then discards it.

## Model

| member | source | states |
|---|---|---|
| Numeric.Increment | source/Data/Arrays/TextureBinding.cs:50-57 | `version++` on a `uint`: always a different value, 0 after the maximum |
| Hashing.HashFoldIsPolynomial | source/BlendSettings.cs:47-58 | the step-wise wrapping 17/31 fold equals the exact polynomial reduced once to a 32-bit `int` |
| Hashing.HashFoldSeesEveryField | source/StencilSettings.cs:44-55 | changing one folded field by an amount that is not a multiple of 2^32 always changes the hash |
| Enums.CodesInjective | source/CompareOperation.cs:1-14 | distinct enum members have distinct underlying values, hence distinct enum hashes |
| DescriptorKeys.DescriptorResourceKey.Set | source/DescriptorResourceKey.cs:14 | the set is the high nibble, below 16 |
| DescriptorKeys.DescriptorResourceKey.Binding | source/DescriptorResourceKey.cs:15 | the binding is the low nibble, below 16 |
| DescriptorKeys.NewKey | source/DescriptorResourceKey.cs:17-29 | succeeds iff set < 15 and binding < 15; the set error comes first; on success the key unpacks to the given binding and set and compares equal to the pair |
| DescriptorKeys.ValidKeyIsConstructed | source/DescriptorResourceKey.cs:17-29 | every valid key is the constructor's result for its own binding and set (unpack then pack is the identity) |
| DescriptorKeys.PackingInjective | source/DescriptorResourceKey.cs:28 | constructed keys are equal iff their bindings and sets are equal |
| DescriptorKeys.DescriptorResourceKey.Deconstruct | source/DescriptorResourceKey.cs:47-50 | returns (binding, set) in that order, and set * 16 + binding is the packed byte |
| DescriptorKeys.DescriptorResourceKey.Equals | source/DescriptorResourceKey.cs:57-60 | equal iff same packed byte, iff same binding and same set |
| DescriptorKeys.DescriptorResourceKey.EqualsPair | source/DescriptorResourceKey.cs:62-65 | for a binding and set below 16, true iff the key holds exactly that binding and set |
| DescriptorKeys.EqualsPairIsUnchecked | source/DescriptorResourceKey.cs:62-65 | the pair comparison does not range-check: key 0:1 equals the pair (16, 0), which the constructor rejects |
| DescriptorKeys.DescriptorResourceKey.HashCode | source/DescriptorResourceKey.cs:67-70 | the hash is the packed byte, set * 16 + binding |
| DescriptorKeys.HashCodeExact | source/DescriptorResourceKey.cs:57-70 | two keys hash alike iff they are equal |
| DescriptorKeys.DescriptorResourceKey.Text | source/DescriptorResourceKey.cs:38-45 | decimal binding, ':', decimal set; 3 to 5 characters |
| DescriptorKeys.DescriptorResourceKey.ToString | source/DescriptorResourceKey.cs:38-45 | writes exactly that text at the start of the buffer, returns its length and leaves the rest of the buffer alone |
| DescriptorKeys.WriteDecimal | source/DescriptorResourceKey.cs:41-43 | writes the decimal digits of a byte at an offset, touching nothing else |
| DescriptorKeys.Decimal | source/DescriptorResourceKey.cs:41-43 | a non-empty digit string, one digit below 10, two below 100 |
| DescriptorKeys.DecimalRoundTrip | source/DescriptorResourceKey.cs:41-43 | reading back the written digits gives the number |
| DescriptorKeys.ParseByte | source/DescriptorResourceKey.cs:88 | accepts exactly the non-empty digit strings whose value is below 256, and returns that value |
| DescriptorKeys.IndexOfColon | source/DescriptorResourceKey.cs:84 | the first ':' in the text, or none if the text has no ':' |
| DescriptorKeys.TryParse | source/DescriptorResourceKey.cs:75-105 | empty text or text without ':' gives false and the default key; the text is split at the first ':'; a side that is not a byte gives false and the default key; two bytes below 15 give true and the key holding exactly that binding and set; a parsed set of 15 or more throws the set error, else a binding of 15 or more throws the binding error |
| DescriptorKeys.Parse | source/DescriptorResourceKey.cs:115-123 | text without ':' fails with `MissingColon`; split at the first ':', a side that is not a byte fails with `NotAByte`; two bytes below 15 give the key holding them; otherwise the constructor's range error, the set checked first |
| DescriptorKeys.ParseAgreesWithTryParse | source/DescriptorResourceKey.cs:75-123 | `Parse` succeeds exactly where `TryParse` returns true with the same key, and throws the range error exactly where `TryParse` does |
| DescriptorKeys.TextRoundTrip | source/DescriptorResourceKey.cs:38-45 | for every valid key, `TryParse(text)` returns (true, key) and `Parse(text)` returns the key |
| DescriptorKeys.TryParseThrowsOnLargeParts | source/DescriptorResourceKey.cs:88-91 | "0:15", "15:0" and "15:15" make `TryParse` throw rather than return false, for a large set and for a large binding |
| Textures.TextureBinding.SetTexture | source/Data/Arrays/TextureBinding.cs:40-57 | the texture becomes the argument; the version moves on by one iff it changed; key, region and filtering are kept |
| Textures.TextureBinding.SetRegion | source/Data/Arrays/TextureBinding.cs:59-71 | same change-detecting rule for the region |
| Textures.TextureBinding.SetFiltering | source/Data/Arrays/TextureBinding.cs:73-80 | same change-detecting rule for the filtering |
| Textures.TextureBinding.Equals | source/Data/Arrays/TextureBinding.cs:87-90 | equal iff key, texture and region agree; version and filtering are ignored |
| Textures.TextureBinding.NotEquals | source/Data/Arrays/TextureBinding.cs:97-105 | `!=` is the negation: some of key, texture or region differ |
| Textures.NewTextureBinding | source/Data/Arrays/TextureBinding.cs:22-29 | the constructor stores version, key, texture, region and filtering as given |
| Textures.Retarget | source/Material.cs:425-431 | the three setters in a row: the values become the given ones, the key stays, and the version moves on by the number of values that changed |
| Textures.SettersIdempotent | source/Data/Arrays/TextureBinding.cs:40-80 | repeating a setter (or the three together) with the same argument changes nothing more |
| Textures.SettersKeepKey | source/Data/Arrays/TextureBinding.cs:40-90 | writing back the current value is a no-op, and changing the filtering keeps the binding `Equals` to the original |
| Depth.DepthFlag.Bit | source/DepthSettings.cs:134-142 | the flag bits are 1, 2, 4 and 8 |
| Depth.DepthSettings.Get | source/DepthSettings.cs:20-82 | each flag getter is true iff its bit is set |
| Depth.DepthSettings.With | source/DepthSettings.cs:20-82 | each flag setter makes its flag read back the written value and leaves every other bit and field unchanged |
| Depth.WithIdempotent | source/DepthSettings.cs:20-82 | setting a flag twice to the same value equals setting it once |
| Depth.WithCurrentValue | source/DepthSettings.cs:20-82 | writing the value a flag already has changes nothing |
| Depth.FromFlags | source/DepthSettings.cs:94-102 | the two-argument constructor: both depths 0 and both faces `StencilSettings.Default` |
| Depth.None | source/DepthSettings.cs:7 | no flags, `LessOrEqual` |
| Depth.Default | source/DepthSettings.cs:8 | depth test and depth write, `LessOrEqual` |
| Depth.Read | source/DepthSettings.cs:9 | depth test only, `LessOrEqual` |
| Depth.ReverseZ | source/DepthSettings.cs:10 | `Default` with `GreaterOrEqual` |
| Depth.ReadReverseZ | source/DepthSettings.cs:11 | `Read` with `GreaterOrEqual` |
| Depth.PresetsDistinct | source/DepthSettings.cs:7-11 | the five presets are pairwise different |
| Depth.DepthSettings.Equals | source/DepthSettings.cs:109-117 | equal iff all six fields are equal |
| Depth.DepthSettings.NotEquals | source/DepthSettings.cs:124-132 | `!=` is the negation of equality |
| Blend.BlendSettings.Equals | source/BlendSettings.cs:36-45 | equal iff all seven fields are equal |
| Blend.BlendSettings.NotEquals | source/BlendSettings.cs:60-68 | `!=` is the negation of equality |
| Blend.BlendSettings.HashCode | source/BlendSettings.cs:47-58 | the 17/31 fold of the seven field hashes, as a polynomial modulo 2^32 |
| Blend.PresetsDistinct | source/BlendSettings.cs:7-10 | the four preset constants `Blend.Opaque`, `Blend.AlphaBlend`, `Blend.Additive` and `Blend.NonPremultiplied` (declared with the source's factors) are pairwise unequal, and only `Opaque` leaves blending off |
| Blend.HashFieldsInjective | source/BlendSettings.cs:47-58 | settings with the same field hashes are the same settings |
| Blend.HashCodeSeesEveryField | source/BlendSettings.cs:47-58 | settings that differ in exactly one field always hash differently |
| Stencil.StencilSettings.Equals | source/StencilSettings.cs:33-42 | equal iff all seven fields are equal |
| Stencil.StencilSettings.NotEquals | source/StencilSettings.cs:57-65 | `!=` is the negation of equality |
| Stencil.StencilSettings.HashCode | source/StencilSettings.cs:44-55 | the 17/31 fold over the same seven fields, as a polynomial modulo 2^32 |
| Stencil.NewStencilSettings | source/StencilSettings.cs:17-26 | compare and write masks all ones (0xFFFFFFFF), reference 0, operations as given |
| Stencil.Default | source/StencilSettings.cs:7 | Keep, Keep, Keep and `Always` |
| PushConstants.PushConstantBinding.Equals | source/Data/Arrays/PushConstantBinding.cs:34-37 | equal iff start, component type and stage agree; the size is ignored |
| PushConstants.PushConstantBinding.NotEquals | source/Data/Arrays/PushConstantBinding.cs:49-57 | `!=` is the negation of `Equals` |
| PushConstants.PushConstantBinding.HashCode | source/Data/Arrays/PushConstantBinding.cs:39-47 | the 17/31 fold over start, type, size and stage |
| PushConstants.EqualBindingsOfDifferentSizeHashApart | source/Data/Arrays/PushConstantBinding.cs:34-47 | bindings that are `Equals` but differ in size always hash differently |
| PushConstants.EqualBindingsHashApartExample | source/Data/Arrays/PushConstantBinding.cs:34-47 | a concrete equal pair (sizes 4 and 16) with different hashes |
| ComponentBindings.EntityComponentBinding.Equals | source/Data/Arrays/EntityComponentBinding.cs:30-33 | equal iff component type, key and stage agree; the entity is ignored |
| ComponentBindings.EntityComponentBinding.NotEquals | source/Data/Arrays/EntityComponentBinding.cs:50-58 | `!=` is the negation of `Equals` |
| ComponentBindings.EntityComponentBinding.HashCode | source/Data/Arrays/EntityComponentBinding.cs:35-43 | the 17/31 fold over type hash, entity, key hash and stage |
| ComponentBindings.EqualBindingsOfDifferentEntitiesHashApart | source/Data/Arrays/EntityComponentBinding.cs:30-43 | bindings that are `Equals` but name different entities always hash differently |
| MaterialComponent.NewIsMaterial | source/Data/Components/IsMaterial.cs:14-21 | the constructor stores all five fields |
| MaterialComponent.IsMaterial.Equals | source/Data/Components/IsMaterial.cs:28-31 | equal iff all five fields, version included, are equal |
| MaterialComponent.IsMaterial.NotEquals | source/Data/Components/IsMaterial.cs:43-51 | `!=` is the negation of equality |
| MaterialComponent.IsMaterial.IncrementVersion | source/Data/Components/IsMaterial.cs:38-41 | version + 1 modulo 2^32, the new shader references, flags and depth comparison kept; never equal to the original |
| MaterialComponent.ReloadedVersion | source/Data/Components/IsMaterial.cs:38-41 | n successive increments move the version by n modulo 2^32 and keep flags and depth comparison |
| MaterialComponent.ReloadsAreDistinct | source/Data/Components/IsMaterial.cs:28-41 | fewer than 2^32 increments never give back a component equal to the original |
| Materials.Material.IsLoaded | source/Material.cs:14-25 | a pending request decides by its status alone; without one the material is loaded iff it has its component |
| Materials.Material.VertexShader | source/Material.cs:67-76 | the entity behind the component's vertex shader reference (1-based) |
| Materials.Material.FragmentShader | source/Material.cs:78-87 | the entity behind the component's fragment shader reference (1-based) |
| Materials.Material.Requested | source/Material.cs:142-151 | a material created from an address has a pending request, no component, empty arrays, and is not loaded |
| Materials.Material.WithShaders | source/Material.cs:156-167 | version 0, shader references 1 and 2, opaque blending, default depth, the given flags (none by default), empty arrays; loaded and reporting the given shaders |
| Materials.Material.WithSettings | source/Material.cs:172-183 | the same with the given blend and depth settings; flags default to none |
| Materials.Material.ContainsPushConstant | source/Material.cs:198-211 | true iff some push constant has the given component type index |
| Materials.Material.AddPushConstant | source/Material.cs:233-255 | appends exactly one binding whose start is the wrapped sum of all earlier sizes; earlier entries and the other arrays are unchanged; a missing component is added with default values; no version change; packing is preserved |
| Materials.AppendKeepsLayout | source/Material.cs:235-247 | appending a new type keeps every start equal to the sum of the earlier sizes and keeps the types distinct |
| Materials.PushConstantOffsetsExample | source/Material.cs:239-246 | sizes 16 then 4 give starts 0 and 16 |
| Materials.Material.ContainsComponentBinding | source/Material.cs:213-226 | true iff some binding has the given key and stage |
| Materials.Material.AddComponentBinding | source/Material.cs:264-276 | appends exactly one binding with the given key, entity, type and stage, and returns its position; afterwards it is the first match for (key, stage) |
| Materials.IndexOfComponentBinding | source/Material.cs:299-309 | the least position holding (key, stage), or none iff there is none |
| Materials.Material.GetComponentBinding | source/Material.cs:295-310 | the first binding for (key, stage), or the error where the code throws |
| Materials.Material.SetComponentBinding | source/Material.cs:312-318 | only the first matching binding's entity changes; with no match nothing changes and the error is reported |
| Materials.Material.TryIndexOfTextureBinding | source/Material.cs:402-416 | the least position with the key, or false with position 0 |
| Materials.Material.ContainsTextureBinding | source/Material.cs:228-231 | true iff some texture binding has the key |
| Materials.IndexOfTextureBinding | source/Material.cs:402-416 | the least position holding the key, or none iff there is none |
| Materials.Material.AddTextureBinding | source/Material.cs:325-334 | appends one binding at version 0 with the given key, texture, region and filtering (`Linear` by default); it becomes the first match for the key |
| Materials.Material.AddWholeTextureBinding | source/Material.cs:336-352 | the overloads without a region use (0, 0, 1, 1); filtering defaults to `Linear` |
| Materials.Material.GetTextureBinding | source/Material.cs:354-369 | the first binding at the key, or the error where the code throws |
| Materials.Material.TryGetTextureBinding | source/Material.cs:388-400 | the flag is true iff the key is present, and then the binding is the first one at the key; otherwise no binding (the null reference) |
| Materials.IndexOfTexture | source/Material.cs:371-386 | the least position sampling the texture, or none iff there is none |
| Materials.Material.TryGetFirstTextureBinding | source/Material.cs:371-386 | the first binding sampling the texture, or false and the all-zero binding |
| Materials.RetargetAll | source/Material.cs:418-433 | same length; every binding at the key is retargeted, every other binding is left as it was |
| Materials.Material.SetTextureBinding | source/Material.cs:418-433 | the texture table becomes `RetargetAll` of the old one; nothing else changes |
| Materials.RetargetAllKeepsKeys | source/Material.cs:418-433 | retargeting changes no key, so every key lookup finds the same position afterwards |
| Materials.RetargetAllIdempotent | source/Material.cs:418-433 | setting the same texture, region and filtering twice equals setting them once |

## Left out

- The host world is not modelled: entity creation, schema lookups, `CreateArray`/`GetArray`, references, archetype description. Its state becomes the fields of `Material`: an optional request status, an optional component, the reference list and the three binding sequences.
- Being compliant is modelled as having the material component. The constructors always create the three arrays.
- The storage-buffer and instance-attribute arrays are not modelled. Neither is `AddInstanceBuffer`, whose `InstanceAttributeBinding` type is not part of this model.
- The generic overloads are not modelled separately: `AddPushConstant<T>`, `AddComponentBinding<T>` and the `Entity` overloads. They only resolve a `DataType` or an entity id through the host and then call the modelled operations.
- `Materials.Material.VertexShader`: the getters return the referenced entity id rather than a `Shader` view of it. The other `ref` getters (render order, depth, blend, flags, arrays) are not modelled.
- Material loading is external: the request's address, timeout and loading pipeline. Only whether the status is `Loaded` is modelled.
- `Materials.Material.GetComponentBinding`, `Materials.Material.GetTextureBinding`, `Materials.Material.AddComponentBinding`, `Materials.Material.AddTextureBinding`, `Materials.Material.TryGetTextureBinding`: they return the position of the element (or, for `TryGetTextureBinding`, a copy of it) that the C# code returns by reference. Writing through the returned reference, which edits the array element in place, is not modelled; `SetComponentBinding` and `SetTextureBinding` are the modelled in-place edits.
- `Materials.Material.SetComponentBinding`: the C# `stage` parameter defaults to `ShaderType.Vertex`. `ShaderType` belongs to an external library and is kept as an opaque code here, so the model takes the stage explicitly.
- `Materials.Material.AddPushConstant`: the hash accumulated in the loop is never stored, so it is not modelled.
- Floats are held as 32-bit patterns and compared by bits. The C# `==` on `float` and `Vector4` differs: NaN is unequal to itself, and -0 equals +0. Region and depth comparisons are therefore only modelled for values where the two agree.
- `GetHashCode` of `TextureBinding`, `DepthSettings` and `IsMaterial` uses `HashCode.Combine`, which is randomly seeded per process. Only its inputs are modelled (`Textures.TextureBinding.HashInputs`).
- `DescriptorKeys.ParseByte`: `byte.TryParse` also accepts leading and trailing white space, a sign, and culture-specific forms. The model accepts only ASCII decimal digit strings.
- `DescriptorKeys.Parse`: the format and overflow exceptions of `byte.Parse` are merged into one `NotAByte` error. A missing ':' is reported as `MissingColon` where the C# code throws from `Slice`.
- `DescriptorKeys.DescriptorResourceKey.ToString`: the string-returning overload that wraps the span version is not modelled.
- Some enums come from external libraries: `ShaderType`, `BlendOperation` and `TextureFiltering`. `ShaderType` is kept as an opaque code. `BlendOperation` and `TextureFiltering` take the members and order of the graphics API they mirror.
- The `ToString` debug output of the binding records is not modelled.
- `EntityComponentBinding.Create<T>` is not modelled. It only resolves a `DataType` through the host schema.
- The debug-only guards of `Material` are modelled as preconditions, so behaviour that release builds allow is outside the model. Examples are adding a duplicate key, or `SetTextureBinding` on a missing key, which is a no-op in release.
- The component that `AddPushConstant` adds when none exists is `default(IsMaterial)` with every field zero. `Materials.DefaultRecord` writes out the zero values of the blend and depth settings explicitly.
