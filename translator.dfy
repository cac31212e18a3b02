/**
 * The option records `addParticleSystem` hands to `SPE.Group` and
 * `SPE.Emitter`, built from the component's parsed attribute values.
 * JavaScript numbers are `real`s; vector and matrix arithmetic is done by
 * THREE and enters here as the parameter `applyMatrix4`.
 */
module Translator {
  import opened Wrappers
  import Engine
  import Schema
  import Text

  datatype Vec2 = Vec2(x: real, y: real)
  datatype Vec3 = Vec3(x: real, y: real, z: real)

  /** A THREE `Matrix4` (its sixteen elements); only ever passed to `applyMatrix4`. */
  datatype Matrix4 = Matrix4(elements: seq<real>)

  /** `Vector3.applyMatrix4`, supplied by THREE. */
  type Transform = (Vec3, Matrix4) -> Vec3

  /** `Number.MAX_VALUE`, the largest finite double: (2 - 2^-52) * 2^1023. */
  const MaxValue: real :=
    179769313486231570814527423731704356798070567525844996598917476803157260780028538760589558632766878171540458953514382464234321326889464182768467546703537516986049910576551282076245490090389328944075868508455133942304583236903222948165808559332123348274797826204144723168738177180919299881250404026184124858368.0

  /** The component's `data`: every schema field after parsing. */
  datatype Data = Data(
    enabled: bool,
    frustumCulled: bool,
    texture: string,
    textureFrames: Vec2,
    textureFrameCount: real,
    textureFrameLoop: real,
    blending: string,
    hasPerspective: bool,
    useTransparency: bool,
    alphaTest: real,
    depthWrite: bool,
    depthTest: bool,
    affectedByFog: bool,
    emitterScale: real,
    relative: string,
    particleCount: real,
    duration: real,
    distribution: string,
    activeMultiplier: real,
    direction: int,
    maxAge: real,
    maxAgeSpread: real,
    positionDistribution: string,
    positionSpread: Vec3,
    positionOffset: Vec3,
    randomizePosition: bool,
    radius: real,
    radiusScale: Vec3,
    velocityDistribution: string,
    velocity: Vec3,
    velocitySpread: Vec3,
    randomizeVelocity: bool,
    accelerationDistribution: string,
    acceleration: Vec3,
    accelerationSpread: Vec3,
    randomizeAcceleration: bool,
    drag: real,
    dragSpread: real,
    randomizeDrag: bool,
    wiggle: real,
    wiggleSpread: real,
    rotation: real,
    rotationSpread: real,
    rotationAxis: Vec3,
    rotationAxisSpread: Vec3,
    rotationStatic: bool,
    randomizeRotation: bool,
    color: seq<string>,
    colorSpread: seq<Vec3>,
    randomizeColor: bool,
    opacity: seq<real>,
    opacitySpread: seq<real>,
    randomizeOpacity: bool,
    size: seq<real>,
    sizeSpread: seq<real>,
    randomizeSize: bool,
    angle: seq<real>,
    angleSpread: seq<real>,
    randomizeAngle: bool)

  // ---------------------------------------------------------------- group options

  /**
   * `texture` of the group options. `value` is the path handed to
   * `TextureLoader.load`, standing for the texture it returns.
   */
  datatype TextureOptions = TextureOptions(
    value: string, frames: Vec2, frameCount: Option<real>, loop: real)

  datatype GroupOptions = GroupOptions(
    texture: TextureOptions,
    maxParticleCount: real,
    blending: Option<Engine.Blending>,
    hasPerspective: bool,
    transparent: bool,
    alphaTest: real,
    depthWrite: bool,
    depthTest: bool,
    fog: bool,
    scale: real)

  /**
   * `v !== Number.MAX_VALUE ? v : undefined` (and `: null`): the sentinel
   * becomes an absent value, every other number passes through.
   */
  function UnlessUnset(v: real): (r: Option<real>)
    ensures r.None? <==> v == MaxValue
    ensures r.Some? ==> r.value == v
  {
    if v != MaxValue then Some(v) else None
  }

  function GroupOptionsOf(d: Data): (r: GroupOptions)
    ensures r.texture.frameCount.None? <==> d.textureFrameCount == MaxValue
    ensures r.texture.frameCount.Some? ==> r.texture.frameCount.value == d.textureFrameCount
    ensures r.texture.value == d.texture
    ensures r.maxParticleCount == d.particleCount
    ensures r.blending.Some? ==> Engine.BlendingKey(r.blending.value) == d.blending
    ensures r.blending.None? ==> forall b: Engine.Blending :: Engine.BlendingKey(b) != d.blending
  {
    GroupOptions(
      texture := TextureOptions(
        value := d.texture,
        frames := d.textureFrames,
        frameCount := UnlessUnset(d.textureFrameCount),
        loop := d.textureFrameLoop),
      maxParticleCount := d.particleCount,
      blending := Engine.BlendingNamed(d.blending),
      hasPerspective := d.hasPerspective,
      transparent := d.useTransparency,
      alphaTest := d.alphaTest,
      depthWrite := d.depthWrite,
      depthTest := d.depthTest,
      fog := d.affectedByFog,
      scale := d.emitterScale)
  }

  // ---------------------------------------------------------------- emitter options

  datatype MaxAgeOptions = MaxAgeOptions(value: real, spread: real)

  datatype PositionOptions = PositionOptions(
    value: Vec3, radius: real, radiusScale: Vec3, spread: Vec3,
    distribution: Option<Engine.Distribution>, randomise: bool)

  /** `velocity` and `acceleration`. */
  datatype MotionOptions = MotionOptions(
    value: Vec3, spread: Vec3, distribution: Option<Engine.Distribution>, randomise: bool)

  datatype DragOptions = DragOptions(value: real, spread: real, randomise: bool)

  datatype WiggleOptions = WiggleOptions(value: real, spread: real)

  datatype RotationOptions = RotationOptions(
    axis: Vec3, axisSpread: Vec3, angle: real, angleSpread: real, isStatic: bool, randomise: bool)

  /** `color`: colour specifications, each handed to `THREE.Color`. */
  datatype ColorOptions = ColorOptions(value: seq<string>, spread: seq<Vec3>, randomise: bool)

  /** `opacity`, `size` and `angle`: keyframe values across a particle's life. */
  datatype KeyframeOptions = KeyframeOptions(value: seq<real>, spread: seq<real>, randomise: bool)

  datatype EmitterOptions = EmitterOptions(
    kind: Engine.Distribution,
    particleCount: real,
    duration: Option<real>,
    activeMultiplier: real,
    direction: int,
    maxAge: MaxAgeOptions,
    position: PositionOptions,
    velocity: MotionOptions,
    acceleration: MotionOptions,
    drag: DragOptions,
    wiggle: WiggleOptions,
    rotation: RotationOptions,
    color: ColorOptions,
    opacity: KeyframeOptions,
    size: KeyframeOptions,
    angle: KeyframeOptions)

  /** The emitter `type`: the base distribution if it is a key, otherwise `BOX`. */
  function EmitterKind(base: string): (r: Engine.Distribution)
    ensures Engine.IsDistributionKey(base) ==> Engine.DistributionKey(r) == base
    ensures !Engine.IsDistributionKey(base) ==> r == Engine.Box
  {
    Engine.DistributionNamed(if Engine.IsDistributionKey(base) then base else "BOX").value
  }

  /**
   * A parameter's own distribution if it is a key, otherwise whatever the
   * base distribution looks up to (`undefined` when that is no key either).
   */
  function ParameterDistribution(own: string, base: string): (r: Option<Engine.Distribution>)
    ensures Engine.IsDistributionKey(own) ==> r.Some? && Engine.DistributionKey(r.value) == own
    ensures !Engine.IsDistributionKey(own) ==> r == Engine.DistributionNamed(base)
    ensures r.None? <==> !Engine.IsDistributionKey(own) && !Engine.IsDistributionKey(base)
  {
    Engine.DistributionNamed(if Engine.IsDistributionKey(own) then own else base)
  }

  /** The colour list, or the single colour `"#fff"` when it is empty. */
  function ColorsOrWhite(colors: seq<string>): (r: seq<string>)
    ensures |r| >= 1
    ensures colors != [] ==> r == colors
    ensures colors == [] ==> r == ["#fff"]
  {
    if |colors| > 0 then colors else ["#fff"]
  }

  /**
   * The position seed: the offset through `matrixWorld` when `relative`
   * is `"World"` (capital W, as the code compares), otherwise through the
   * entity's local `matrix`.
   */
  function SeedPosition(relative: string, offset: Vec3, matrix: Matrix4, matrixWorld: Matrix4,
                        applyMatrix4: Transform): (r: Vec3)
    ensures relative != "World" ==> r == applyMatrix4(offset, matrix)
    ensures relative == "World" ==> r == applyMatrix4(offset, matrixWorld)
  {
    if relative == "World" then applyMatrix4(offset, matrixWorld) else applyMatrix4(offset, matrix)
  }

  /**
   * The emitter options for `d`, given the entity's `matrix` and
   * `matrixWorld`.
   */
  function EmitterOptionsOf(d: Data, matrix: Matrix4, matrixWorld: Matrix4,
                            applyMatrix4: Transform): (r: EmitterOptions)
    ensures Engine.IsDistributionKey(d.distribution) ==> Engine.DistributionKey(r.kind) == d.distribution
    ensures !Engine.IsDistributionKey(d.distribution) ==> r.kind == Engine.Box
    ensures r.duration.None? <==> d.duration == MaxValue
    ensures r.duration.Some? ==> r.duration.value == d.duration
    ensures r.position.distribution == ParameterDistribution(d.positionDistribution, d.distribution)
    ensures r.velocity.distribution == ParameterDistribution(d.velocityDistribution, d.distribution)
    ensures r.acceleration.distribution == ParameterDistribution(d.accelerationDistribution, d.distribution)
    ensures r.color.value == ColorsOrWhite(d.color)
    ensures r.color.spread == d.colorSpread
    ensures r.opacity.value == d.opacity && r.opacity.spread == d.opacitySpread
    ensures r.size.value == d.size && r.size.spread == d.sizeSpread
    ensures r.angle.value == d.angle && r.angle.spread == d.angleSpread
    ensures d.relative != "World" ==> r.position.value == applyMatrix4(d.positionOffset, matrix)
  {
    EmitterOptions(
      kind := EmitterKind(d.distribution),
      particleCount := d.particleCount,
      duration := UnlessUnset(d.duration),
      activeMultiplier := d.activeMultiplier,
      direction := d.direction,
      maxAge := MaxAgeOptions(d.maxAge, d.maxAgeSpread),
      position := PositionOptions(
        value := SeedPosition(d.relative, d.positionOffset, matrix, matrixWorld, applyMatrix4),
        radius := d.radius,
        radiusScale := d.radiusScale,
        spread := d.positionSpread,
        distribution := ParameterDistribution(d.positionDistribution, d.distribution),
        randomise := d.randomizePosition),
      velocity := MotionOptions(
        d.velocity, d.velocitySpread,
        ParameterDistribution(d.velocityDistribution, d.distribution), d.randomizeVelocity),
      acceleration := MotionOptions(
        d.acceleration, d.accelerationSpread,
        ParameterDistribution(d.accelerationDistribution, d.distribution), d.randomizeAcceleration),
      drag := DragOptions(d.drag, d.dragSpread, d.randomizeDrag),
      wiggle := WiggleOptions(d.wiggle, d.wiggleSpread),
      rotation := RotationOptions(
        d.rotationAxis, d.rotationAxisSpread, d.rotation, d.rotationSpread,
        d.rotationStatic, d.randomizeRotation),
      color := ColorOptions(ColorsOrWhite(d.color), d.colorSpread, d.randomizeColor),
      opacity := KeyframeOptions(d.opacity, d.opacitySpread, d.randomizeOpacity),
      size := KeyframeOptions(d.size, d.sizeSpread, d.randomizeSize),
      angle := KeyframeOptions(d.angle, d.angleSpread, d.randomizeAngle))
  }

  // ---------------------------------------------------------------- attachment

  /** Where the group's mesh is attached: the scene or the component's own entity. */
  datatype Attachment = SceneElement | OwnEntity

  /** `relative === "world" ? this.el.sceneEl : this.el`. */
  function AttachmentFor(relative: string): (r: Attachment)
    ensures r == SceneElement <==> relative == "world"
  {
    if relative == "world" then SceneElement else OwnEntity
  }

  // ---------------------------------------------------------------- properties

  /**
   * Seeding with a parsed `relative` attribute always goes through the local
   * matrix, also in world mode: the parser lower-cases, the code compares
   * with `"World"`.
   */
  lemma SeedAlwaysLocal(raw: string, d: Data, matrix: Matrix4, matrixWorld: Matrix4,
                        applyMatrix4: Transform)
    requires d.relative == Schema.ParseRelative(raw)
    ensures EmitterOptionsOf(d, matrix, matrixWorld, applyMatrix4).position.value
         == applyMatrix4(d.positionOffset, matrix)
  {
    Schema.ParseRelativeNeverCapitalWorld(raw);
  }

  /**
   * The three parameter distributions are independent: changing the
   * position override leaves the velocity and acceleration options as they
   * were (the lemmas below do the same for the other two overrides).
   */
  lemma PositionOverrideIndependent(d: Data, s: string, matrix: Matrix4, matrixWorld: Matrix4,
                                    applyMatrix4: Transform)
    ensures var r := EmitterOptionsOf(d, matrix, matrixWorld, applyMatrix4);
            var p := EmitterOptionsOf(d.(positionDistribution := s), matrix, matrixWorld, applyMatrix4);
            p.velocity == r.velocity && p.acceleration == r.acceleration
  {
  }

  lemma VelocityOverrideIndependent(d: Data, s: string, matrix: Matrix4, matrixWorld: Matrix4,
                                    applyMatrix4: Transform)
    ensures var r := EmitterOptionsOf(d, matrix, matrixWorld, applyMatrix4);
            var v := EmitterOptionsOf(d.(velocityDistribution := s), matrix, matrixWorld, applyMatrix4);
            v.position == r.position && v.acceleration == r.acceleration
  {
  }

  lemma AccelerationOverrideIndependent(d: Data, s: string, matrix: Matrix4, matrixWorld: Matrix4,
                                        applyMatrix4: Transform)
    ensures var r := EmitterOptionsOf(d, matrix, matrixWorld, applyMatrix4);
            var a := EmitterOptionsOf(d.(accelerationDistribution := s), matrix, matrixWorld, applyMatrix4);
            a.position == r.position && a.velocity == r.velocity
  {
  }

  /**
   * With parsed attributes, an empty override text falls back to the base
   * distribution, and an override naming a distribution (in any case) wins
   * over the base.
   */
  lemma ParsedOverridePrecedence(raw: string, rawBase: string, d: Data, matrix: Matrix4,
                                 matrixWorld: Matrix4, applyMatrix4: Transform)
    requires d.positionDistribution == Schema.ParseDistributionOverride(raw)
    requires d.distribution == Schema.ParseDistribution(rawBase)
    ensures var r := EmitterOptionsOf(d, matrix, matrixWorld, applyMatrix4);
            (raw == [] ==> r.position.distribution == Engine.DistributionNamed(d.distribution)) &&
            (forall k: Engine.Distribution :: Text.Upper(raw) == Engine.DistributionKey(k) ==>
               r.position.distribution == Some(k))
  {
    if raw == [] {
      Schema.UnsetOverrideIsNoKey();
    }
    forall k: Engine.Distribution | Text.Upper(raw) == Engine.DistributionKey(k)
      ensures EmitterOptionsOf(d, matrix, matrixWorld, applyMatrix4).position.distribution == Some(k)
    {
      Schema.ParsedOverrideKey(raw, k);
    }
  }

  /** A world-mode component is attached to the scene, any other to its entity. */
  lemma ParsedAttachment(raw: string)
    ensures AttachmentFor(Schema.ParseRelative(raw)) == SceneElement <==> Text.Lower(raw) == "world"
  {
    Schema.ParseRelativeWorld(raw);
  }
}
