# spe-particles, modelled in Dafny

`spe-particles` is an A-Frame component that drives the Shader Particle
Engine (SPE). A scene author configures a particle system through about
sixty HTML attributes. The component turns those attributes into SPE
option objects and manages one `SPE.Group` holding one `SPE.Emitter` over
the entity's life. This project models three parts of `index.js`:

- **Attribute normalisers** (module `Schema`): the `parse`/`stringify`
  functions the schema attaches to `relative`, `distribution`, the three
  `...Distribution` overrides, `direction` and `blending`, and the
  comma-separated list parsers (`parseFloatArray`, `colorSpread`). String
  operations (ASCII case mapping, `split(",")`, `join(",")`, `substring`,
  decimal printing) live in module `Text`. The two name tables the code
  indexes, `SPE.distributions` and the `THREE` blending constants, live in
  module `Engine`.
- **Config translator** (module `Translator`): `addParticleSystem`'s
  construction of `groupOptions` and `emitterOptions` from the parsed data,
  as total functions of the data and the entity's two matrices.
  The model covers:
  - the `Number.MAX_VALUE` "not set" sentinel;
  - distribution fallback and precedence;
  - the white colour fallback;
  - the seed position;
  - the choice of attachment element.
- **Lifecycle** (module `Lifecycle`): the component as a class whose
  fields the methods update: `init`, `update`, `remove`, `tick`,
  `addParticleSystem`, `removeParticleSystem`, `startParticles`,
  `stopParticles`, `getEmitterName`. The counter `uniqueEmitterID`, the
  engine's group and emitter, and the entities' `setObject3D` /
  `removeObject3D` maps are small classes beside it.

JavaScript numbers are modelled as `real`. `Number.MAX_VALUE` is written
out exactly (`Translator.MaxValue`). A missing property lookup
(`undefined`) and `null` are both `None`.

Two places in the code do not do what the code itself says it intends.
The model follows the code as written:

- World-mode seeding. The comment at `index.js:453-454` says world
  emitters are parented to the scene and positioned in world space. At
  `index.js:390` the code compares the parsed `relative` with `"World"`,
  but the parser at `index.js:98` produces lower case. The seed therefore
  always goes through the local matrix (`Translator.SeedAlwaysLocal`).
  Per-frame repositioning at `index.js:345` compares with `"world"`, and
  is modelled as written.
- Blending round trip. The `oneOf` list at `index.js:53` gives the short
  names a blending attribute takes, so stringify should print one back.
  Stringify at `index.js:61` returns the long name unchanged (see
  Findings).

The model assumes `SPE.distributions` has exactly the keys `BOX`,
`SPHERE` and `DISC`. It also assumes that, among the names the blending
parser can produce, the only properties of `THREE` are the six
`…Blending` constants. Both `THREE[name]` (`index.js:367`) and
`longX in THREE` (`index.js:58`) are modelled over those six. The SPE and
three.js libraries are not part of this model.

## Model

| member | source | states |
|---|---|---|
| Schema.ParseRelative | index.js:98 | the result is non-empty and lower case; empty text gives `"local"`; other text keeps its letters up to case |
| Schema.ParseRelativeIdempotent | index.js:98 | parsing a parsed `relative` changes nothing |
| Schema.ParseRelativeWorld | index.js:98 | the parsed mode is `"world"` exactly when the text is "world" in any case |
| Schema.ParseRelativeNeverCapitalWorld | index.js:98 | no text parses to `"World"` |
| Schema.ParseUpperOr | index.js:112 | shared by the four distribution parsers: the result is upper case; empty text gives the upper-cased default; other text keeps its letters up to case; non-empty when the default is |
| Schema.ParseDistribution | index.js:112 | empty text gives `"BOX"`; the result is a distribution key exactly when the text is empty or upper-cases to a key |
| Schema.ParseDistributionOverride | index.js:138 | the `position`/`velocity`/`accelerationDistribution` parser (also lines 166 and 184): empty text gives `"NONE"`; the result is a key exactly when the text upper-cases to one |
| Schema.ParseUpperOrIdempotent | index.js:112 | for every default, parsing a parsed value changes nothing |
| Schema.ParseDistributionIdempotent | index.js:112 | both distribution parsers are idempotent |
| Schema.UnsetOverrideIsNoKey | index.js:134-138 | neither the default `"NONE"` nor an explicit "none" in any case is a key of `SPE.distributions` |
| Schema.ParsedOverrideKey | index.js:138 | a parsed override names distribution `d` exactly when the text upper-cases to `d`'s key |
| Schema.ParseDirection | index.js:123 | the result is 1 or -1, and it is 1 exactly when the text is "forward" ignoring case |
| Schema.StringifyDirection | index.js:124 | `"forward"` for 1 and `"backward"` for every other value, so parsing the result gives 1 for 1 and -1 otherwise |
| Schema.DirectionRoundTrip | index.js:123-124 | for "forward"/"backward" in any case, stringify after parse gives the lower-case word |
| Schema.Capitalize | index.js:57 | same length and letters up to case; the first character is upper case and the rest lower case |
| Schema.ParseBlending | index.js:55-60 | the result is the capitalised text (or `"No"` when empty) followed by `"Blending"` |
| Schema.BlendingMatchesWord | index.js:53-59 | the parsed mode names THREE constant `b` exactly when the text (or `"No"`) equals `b`'s word from the `oneOf` list, ignoring case |
| Schema.BlendingDiagnosedIff | index.js:58 | the unknown-mode error is raised exactly when the text matches none of the six words, ignoring case |
| Schema.StringifyBlending | index.js:61 | `substring(-8)` returns its argument unchanged |
| Schema.BlendingRoundTripFails | index.js:55-61 | the source's parse, stringify, parse round trip never returns the first parse |
| Schema.StringifyBlendingIntended | index.js:61 | drops the last eight characters, and gives `""` for text shorter than eight |
| Schema.BlendingRoundTripIntended | index.js:55-61 | with the corrected stringify, parse after stringify after parse equals parse |
| Schema.ParseList | index.js:12 | one value per comma-separated segment (commas + 1 in all), each the item parser applied to its segment |
| Schema.ParseListSegments | index.js:12 | the segments cover the whole text: joining them gives it back |
| Schema.StringifyList | index.js:262 | for a non-empty list whose printed items hold no comma, splitting the text gives back exactly the printed items, in order |
| Schema.ListRoundTripText | index.js:261-262 | when printing a parsed segment gives its normal form, stringify after parse gives the segments' normal forms joined by commas |
| Schema.ListRoundTripIdentity | index.js:261-262 | when printing a parsed segment gives the segment itself, stringify after parse gives back the text |
| Schema.ListRoundTripValues | index.js:261-262 | for a non-empty list whose own elements print without commas and re-parse to themselves, parse after stringify gives the list back |
| Engine.DistributionNamed | index.js:379 | a found distribution has the given key; `None` exactly when no distribution has it |
| Engine.DistributionKeyRoundTrip | index.js:379 | each distribution is found under its own key |
| Engine.BlendingNamed | index.js:367 | a found constant has the given name; `None` exactly when no constant has it |
| Engine.BlendingKeyRoundTrip | index.js:367 | each blending constant is found under its own name |
| Translator.UnlessUnset | index.js:363 | the sentinel `Number.MAX_VALUE` becomes absent; every other number passes through |
| Translator.GroupOptionsOf | index.js:359-375 | frame count absent exactly at the sentinel; texture and particle count passed through; blending is the THREE constant so named, absent if none is |
| Translator.EmitterKind | index.js:379 | the base distribution when it is a key, otherwise `BOX` |
| Translator.ParameterDistribution | index.js:394 | a parameter's own key wins; otherwise the base's lookup; absent exactly when neither is a key |
| Translator.ColorsOrWhite | index.js:428 | never empty; the given colours, or `["#fff"]` when there are none |
| Translator.SeedPosition | index.js:390 | through the world matrix exactly when `relative` is `"World"`, otherwise through the local matrix |
| Translator.EmitterOptionsOf | index.js:378-447 | emitter type, duration sentinel, the three distributions by precedence, colour fallback, spread and keyframe pass-through, local seed |
| Translator.AttachmentFor | index.js:455 | attach to the scene exactly when `relative` is `"world"` |
| Translator.SeedAlwaysLocal | index.js:390 | with a parsed `relative`, the seed always goes through the local matrix |
| Translator.PositionOverrideIndependent | index.js:394 | changing the position override leaves the velocity and acceleration options unchanged |
| Translator.VelocityOverrideIndependent | index.js:400 | changing the velocity override leaves the position and acceleration options unchanged |
| Translator.AccelerationOverrideIndependent | index.js:406 | changing the acceleration override leaves the position and velocity options unchanged |
| Translator.ParsedOverridePrecedence | index.js:394 | with parsed data, an empty override falls back to the base distribution, and an override naming `k` in any case gives `k` |
| Translator.ParsedAttachment | index.js:455 | with a parsed `relative`, the group goes to the scene exactly when the text is "world" in any case |
| Lifecycle.EmitterName | index.js:474-476 | the name is `"spe-particles"` followed by decimal digits, with no leading zero, that read back as the id |
| Lifecycle.EmitterNameInjective | index.js:474-476 | two ids give the same name exactly when they are equal |
| Lifecycle.Component.GetEmitterName | index.js:474-476 | this activation's name: `"spe-particles"` followed by digits that read back as its `emitterID` |
| Lifecycle.IdCounter.constructor | index.js:16 | the counter starts at 1 |
| Lifecycle.Component.constructor | index.js:320-322 | no group, id 0, no reference element |
| Lifecycle.Component.Init | index.js:324-326 | the activation takes the counter's value and the counter advances by one |
| Lifecycle.Component.RemoveParticleSystem | index.js:459-464 | with a group: its name is detached from the reference element and the group forgotten; with none: nothing changes |
| Lifecycle.Component.AddParticleSystem | index.js:353-457 | a fresh group and emitter built from the group and emitter options of the data; attached under the name to the scene or entity as `relative` selects; no other element changes |
| Lifecycle.Component.StartParticles | index.js:466-468 | every emitter is enabled and no position changes |
| Lifecycle.Component.StopParticles | index.js:470-472 | every emitter is disabled and no position changes |
| Lifecycle.Component.Rebuild | index.js:330-331 | remove then add: the old attachment disappears; a fresh, never-ticked group built from the data, its emitter at the seed position, is attached under the same name |
| Lifecycle.Component.ApplyEnabled | index.js:333-337 | running exactly when `enabled` holds; the group's options, steps and emitter position are untouched |
| Lifecycle.Component.Update | index.js:328-338 | a brand-new, never-ticked group built from the data, its emitter at the seed position, attached under an unchanged name; it is running exactly when `enabled` holds |
| Lifecycle.Component.Remove | index.js:340-342 | the group is detached and nothing replaces it |
| Lifecycle.Component.Tick | index.js:344-351 | the group advances by `dt/1000` seconds; in world mode the emitter moves to the offset through the world matrix |
| Lifecycle.ReconfigureTwice | index.js:328-338 | two updates of one activation build distinct groups under one name |

## Left out

- `degToRad`/`radToDeg` (`index.js:13-14`) and the `rotation`/`rotationSpread` parsers: floating-point trigonometric conversion; the model takes the parsed angles as given.
- `parseFloat` and `AFRAME.utils.coordinates.parse`/`stringify`: foreign functions, passed to `Schema.ParseList`/`Schema.StringifyList` as parameters.
- `THREE.Vector2`/`Vector3`/`Color` construction: colours stay as their specification strings and vectors as records.
- `applyMatrix4`: a parameter of the model (`Translator.Transform`).
- `THREE.TextureLoader().load`: asynchronous I/O; the texture option holds the path.
- `mesh.frustumCulled` (`index.js:451`): a property of the engine's mesh, which is not modelled.
- `generateMarkDown` and `printValue`: documentation helpers outside the core.
- `AFRAME.registerComponent` and the framework's handling of `default`, `type`, `oneOf`, `min` and `max`: the model starts from the data after the framework has parsed the attributes (`Translator.Data`).
- `console.error` diagnostics: the unknown-blending message is the predicate `Schema.BlendingDiagnosed`; the `particleGroup === null` check at `index.js:358` only logs, and is not modelled.
- JavaScript's type coercions: `x || d` is modelled for strings only (`Schema.OrDefault`); a `direction` parser given a non-string throws, which is not modelled.
- Case mapping: ASCII letters only; JavaScript's full Unicode case mapping is not modelled.
- Numbers: exact reals, no IEEE rounding. `Lifecycle.EmitterName` prints every id in plain decimal, while JavaScript switches to exponent notation from 10^21.
- The engine's simulation: `SPE.Group.tick` is reduced to recording its time steps; the emitter's `enable`/`disable` to a flag.
- Lifecycle.Component.Tick: requires a group, as A-Frame calls `tick` only after `update`; in JavaScript a tick without a group throws.
- DistributionNamed: models `name in SPE.distributions` on the three own keys. Names inherited from `Object.prototype` are not modelled; parsed names are upper case, so none of those can match.
- Concurrency and event ordering of the A-Frame render loop: one call at a time.

## Findings

| source | as written | input that shows it | evidently intended | confidence | as-written member | corrected member |
|---|---|---|---|---|---|---|
| index.js:61 | `stringify: x => x.substring(-8)` returns `x` unchanged, because a negative start counts as 0 | `"Additive"` parses to `"AdditiveBlending"`; stringify keeps `"AdditiveBlending"`; parsing that gives `"AdditiveblendingBlending"` | `x.slice(0, -8)`, dropping the `"Blending"` suffix so that parse after stringify gives the same mode | medium, not executed | Schema.BlendingRoundTripFails | Schema.BlendingRoundTripIntended |
