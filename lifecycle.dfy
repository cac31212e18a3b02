/**
 * The component's life: `init` takes an id from the process-wide counter,
 * every `update` tears the particle group down and builds a new one from
 * the current data, `tick` moves a world-mode emitter and advances the
 * simulation, `remove` tears the group down for good.
 *
 * The engine's `SPE.Group` and `SPE.Emitter` are modelled by the little
 * state the component touches: a group's list of emitters and the time
 * steps it was advanced by, an emitter's enabled flag and position.
 */
module Lifecycle {
  import opened Translator
  import Text

  const ComponentName: string := "spe-particles"

  /**
   * `COMPONENT_NAME + id`: the component name followed by the id in
   * decimal, which reads back as the id.
   */
  function EmitterName(id: nat): (r: string)
    ensures |r| > |ComponentName| && r[..|ComponentName|] == ComponentName
    ensures Text.AllDigits(r[|ComponentName|..])
    ensures Text.DecimalValue(r[|ComponentName|..]) == id
    ensures |r| == |ComponentName| + 1 || r[|ComponentName|] != '0'
  {
    var r := ComponentName + Text.DecimalString(id);
    assert r[|ComponentName|..] == Text.DecimalString(id);
    Text.DecimalRoundTrip(id);
    r
  }

  /** Two activations with different ids never share an attachment slot. */
  lemma EmitterNameInjective(a: nat, b: nat)
    ensures EmitterName(a) == EmitterName(b) <==> a == b
  {
    if EmitterName(a) == EmitterName(b) {
      assert EmitterName(a)[|ComponentName|..] == EmitterName(b)[|ComponentName|..];
    }
  }

  /** Detaching a name and attaching it again is the same as attaching it. */
  lemma RemoveThenSet<K, V>(m: map<K, V>, k: K, v: V)
    ensures (m - {k})[k := v] == m[k := v]
  {
  }

  /** The global `uniqueEmitterID`. */
  class IdCounter {
    var next: nat

    constructor ()
      ensures next == 1
    {
      next := 1;
    }
  }

  /** An `SPE.Emitter`. */
  class Emitter {
    const options: EmitterOptions
    var enabled: bool
    /** `position.value`, which `tick` overwrites. */
    var position: Vec3

    constructor (options: EmitterOptions)
      ensures this.options == options
      ensures enabled && position == options.position.value
    {
      this.options := options;
      enabled := true;
      position := options.position.value;
    }

    method Enable()
      modifies this`enabled
      ensures enabled
    {
      enabled := true;
    }

    method Disable()
      modifies this`enabled
      ensures !enabled
    {
      enabled := false;
    }
  }

  /** An `SPE.Group`; it also stands for its `mesh`. */
  class Group {
    const options: GroupOptions
    var emitters: seq<Emitter>
    /** The time steps `tick` has advanced the simulation by, in order. */
    var steps: seq<real>

    constructor (options: GroupOptions)
      ensures this.options == options
      ensures emitters == [] && steps == []
    {
      this.options := options;
      emitters := [];
      steps := [];
    }

    method AddEmitter(e: Emitter)
      modifies this`emitters
      ensures emitters == old(emitters) + [e]
    {
      emitters := emitters + [e];
    }

    method Tick(dt: real)
      modifies this`steps
      ensures steps == old(steps) + [dt]
    {
      steps := steps + [dt];
    }
  }

  /** An element of the scene: its named render objects and its transforms. */
  class SceneNode {
    /** The element's `object3DMap`. */
    var objects: map<string, Group>
    /** `object3D.matrix`, relative to the parent. */
    var matrix: Matrix4
    /** `object3D.matrixWorld`. */
    var matrixWorld: Matrix4

    constructor (matrix: Matrix4, matrixWorld: Matrix4)
      ensures objects == map[] && this.matrix == matrix && this.matrixWorld == matrixWorld
    {
      objects := map[];
      this.matrix := matrix;
      this.matrixWorld := matrixWorld;
    }

    /** `setObject3D`: the name now refers to `g`, replacing any earlier object. */
    method SetObject3D(name: string, g: Group)
      modifies this`objects
      ensures objects == old(objects)[name := g]
    {
      objects := objects[name := g];
    }

    /** `removeObject3D`: the name no longer refers to anything. */
    method RemoveObject3D(name: string)
      modifies this`objects
      ensures objects == old(objects) - {name}
    {
      objects := objects - {name};
    }
  }

  /** What the component's activation is doing. */
  datatype Phase = Unconfigured | Running | Stopped | Mixed

  /** The `spe-particles` component on one entity. */
  class Component {
    /** `this.el`. */
    const el: SceneNode
    /** `this.el.sceneEl`. */
    const sceneEl: SceneNode
    const applyMatrix4: Transform
    /** `this.data`, written by the framework before each `update`. */
    var data: Data
    var particleGroup: Group?
    var emitterID: nat
    var referenceEl: SceneNode?

    constructor (el: SceneNode, sceneEl: SceneNode, data: Data, applyMatrix4: Transform)
      ensures this.el == el && this.sceneEl == sceneEl && this.data == data
      ensures this.applyMatrix4 == applyMatrix4
      ensures particleGroup == null && emitterID == 0 && referenceEl == null
      ensures Valid()
    {
      this.el := el;
      this.sceneEl := sceneEl;
      this.data := data;
      this.applyMatrix4 := applyMatrix4;
      particleGroup := null;
      emitterID := 0;
      referenceEl := null;
    }

    /**
     * While a group exists it is attached, under this activation's name, to
     * the entity or the scene, and it holds exactly one emitter.
     */
    ghost predicate Valid()
      reads this, referenceEl, particleGroup
    {
      particleGroup != null ==>
        && referenceEl != null
        && (referenceEl == el || referenceEl == sceneEl)
        && EmitterName(emitterID) in referenceEl.objects
        && referenceEl.objects[EmitterName(emitterID)] == particleGroup
        && |particleGroup.emitters| == 1
    }

    /**
     * `g` was built from `d`: its options are the group options of `d`, and
     * its one emitter's options are the emitter options of `d` for the
     * entity's current transforms.
     */
    ghost predicate BuiltFrom(g: Group, d: Data)
      reads g, el
    {
      && g.options == GroupOptionsOf(d)
      && |g.emitters| == 1
      && g.emitters[0].options == EmitterOptionsOf(d, el.matrix, el.matrixWorld, applyMatrix4)
    }

    /** The element the current data attaches a group to. */
    function Target(): SceneNode
      reads this
    {
      if AttachmentFor(data.relative) == SceneElement then sceneEl else el
    }

    ghost function Phase(): Phase
      reads this, particleGroup
      reads if particleGroup == null then {} else set e | e in particleGroup.emitters
    {
      if particleGroup == null then Unconfigured
      else if forall e :: e in particleGroup.emitters ==> e.enabled then Running
      else if forall e :: e in particleGroup.emitters ==> !e.enabled then Stopped
      else Mixed
    }

    /** `getEmitterName`. */
    function GetEmitterName(): (r: string)
      reads this`emitterID
      ensures |r| > |ComponentName| && r[..|ComponentName|] == ComponentName
      ensures Text.AllDigits(r[|ComponentName|..])
      ensures Text.DecimalValue(r[|ComponentName|..]) == emitterID
    {
      EmitterName(emitterID)
    }

    /** `init`: this activation takes the counter's value, and the counter moves on. */
    method Init(counter: IdCounter)
      modifies this`emitterID, counter
      ensures emitterID == old(counter.next) && counter.next == old(counter.next) + 1
      ensures particleGroup == null ==> Valid()
    {
      emitterID := counter.next;
      counter.next := counter.next + 1;
    }

    /**
     * `removeParticleSystem`: with no group, nothing happens; otherwise the
     * group is detached, under the same name, from the element it was
     * attached to, and forgotten.
     */
    method RemoveParticleSystem()
      requires Valid()
      modifies this`particleGroup, el`objects, sceneEl`objects
      ensures particleGroup == null && Valid()
      ensures old(particleGroup) == null ==>
                el.objects == old(el.objects) && sceneEl.objects == old(sceneEl.objects)
      ensures old(particleGroup) != null ==>
                referenceEl.objects == old(referenceEl.objects) - {EmitterName(emitterID)}
      ensures el != referenceEl ==> el.objects == old(el.objects)
      ensures sceneEl != referenceEl ==> sceneEl.objects == old(sceneEl.objects)
    {
      if particleGroup != null {
        referenceEl.RemoveObject3D(GetEmitterName());
        particleGroup := null;
      }
    }

    /**
     * `addParticleSystem`: a fresh group built from the group options and
     * holding one fresh emitter built from the emitter options, attached
     * under this activation's name to the element the data selects.
     */
    method AddParticleSystem()
      modifies this`particleGroup, this`referenceEl, el`objects, sceneEl`objects
      ensures particleGroup != null && fresh(particleGroup)
      ensures particleGroup.steps == [] && |particleGroup.emitters| == 1
      ensures fresh(particleGroup.emitters[0])
      ensures BuiltFrom(particleGroup, data)
      ensures particleGroup.emitters[0].position == particleGroup.emitters[0].options.position.value
      ensures referenceEl == Target()
      ensures referenceEl.objects == old(Target().objects)[EmitterName(emitterID) := particleGroup]
      ensures el != referenceEl ==> el.objects == old(el.objects)
      ensures sceneEl != referenceEl ==> sceneEl.objects == old(sceneEl.objects)
      ensures Valid()
    {
      var group := new Group(GroupOptionsOf(data));
      particleGroup := group;
      var emitter := new Emitter(EmitterOptionsOf(data, el.matrix, el.matrixWorld, applyMatrix4));
      group.AddEmitter(emitter);
      referenceEl := Target();
      referenceEl.SetObject3D(GetEmitterName(), group);
    }

    /** `startParticles`: enable every emitter of the group. */
    method StartParticles()
      requires particleGroup != null
      modifies particleGroup.emitters`enabled
      ensures forall e :: e in particleGroup.emitters ==> e.enabled
      ensures forall e :: e in particleGroup.emitters ==> e.position == old(e.position)
      ensures Phase() == Running
    {
      var emitters := particleGroup.emitters;
      for i := 0 to |emitters|
        invariant forall j :: 0 <= j < i ==> emitters[j].enabled
        invariant forall e :: e in emitters ==> e.position == old(e.position)
      {
        emitters[i].Enable();
      }
    }

    /** `stopParticles`: disable every emitter of the group. */
    method StopParticles()
      requires particleGroup != null
      modifies particleGroup.emitters`enabled
      ensures forall e :: e in particleGroup.emitters ==> !e.enabled
      ensures forall e :: e in particleGroup.emitters ==> e.position == old(e.position)
      ensures particleGroup.emitters != [] ==> Phase() == Stopped
    {
      var emitters := particleGroup.emitters;
      for i := 0 to |emitters|
        invariant forall j :: 0 <= j < i ==> !emitters[j].enabled
        invariant forall e :: e in emitters ==> e.position == old(e.position)
      {
        emitters[i].Disable();
      }
      if emitters != [] {
        assert emitters[0] in emitters;
      }
    }

    /** The first half of `update`: `removeParticleSystem`, then `addParticleSystem`. */
    method Rebuild()
      requires Valid()
      modifies this`particleGroup, this`referenceEl, el`objects, sceneEl`objects
      ensures Valid()
      ensures particleGroup != null && fresh(particleGroup)
      ensures fresh(particleGroup.emitters[0]) && BuiltFrom(particleGroup, data)
      ensures particleGroup.steps == []
      ensures particleGroup.emitters[0].position == particleGroup.emitters[0].options.position.value
      ensures referenceEl == Target()
      ensures referenceEl.objects == old(Target().objects)[EmitterName(emitterID) := particleGroup]
      ensures old(particleGroup) != null && old(referenceEl) != referenceEl ==>
                old(referenceEl).objects == old(referenceEl.objects) - {EmitterName(emitterID)}
      ensures el != referenceEl && (old(particleGroup) == null || el != old(referenceEl)) ==>
                el.objects == old(el.objects)
      ensures sceneEl != referenceEl && (old(particleGroup) == null || sceneEl != old(referenceEl)) ==>
                sceneEl.objects == old(sceneEl.objects)
    {
      ghost var name := EmitterName(emitterID);
      ghost var target := Target();
      ghost var before := target.objects;
      RemoveParticleSystem();
      assert target.objects == before || target.objects == before - {name};
      AddParticleSystem();
      RemoveThenSet(before, name, particleGroup);
    }

    /**
     * The second half of `update`: start the emitters when `data.enabled`
     * holds, stop them otherwise. Only the emitters' flags change, so the
     * group keeps its options, its steps and its emitter's position.
     */
    method ApplyEnabled()
      requires particleGroup != null && |particleGroup.emitters| == 1
      modifies particleGroup.emitters`enabled
      ensures Phase() == if data.enabled then Running else Stopped
      ensures BuiltFrom(particleGroup, data) <==> old(BuiltFrom(particleGroup, data))
      ensures particleGroup.steps == old(particleGroup.steps)
      ensures particleGroup.emitters[0].position == old(particleGroup.emitters[0].position)
    {
      if data.enabled {
        StartParticles();
      } else {
        StopParticles();
      }
    }

    /**
     * `update`: the old group (if any) is detached, a brand-new one is
     * built from the current data and attached under the same name, and it
     * emits exactly when `data.enabled` holds.
     */
    method Update()
      requires Valid()
      modifies this`particleGroup, this`referenceEl, el`objects, sceneEl`objects
      ensures Valid()
      ensures particleGroup != null && fresh(particleGroup) && particleGroup != old(particleGroup)
      ensures fresh(particleGroup.emitters[0]) && BuiltFrom(particleGroup, data)
      ensures particleGroup.steps == []
      ensures particleGroup.emitters[0].position == particleGroup.emitters[0].options.position.value
      ensures Phase() == if data.enabled then Running else Stopped
      ensures emitterID == old(emitterID)
      ensures referenceEl == Target()
      ensures referenceEl.objects == old(Target().objects)[EmitterName(emitterID) := particleGroup]
      ensures old(particleGroup) != null && old(referenceEl) != referenceEl ==>
                old(referenceEl).objects == old(referenceEl.objects) - {EmitterName(emitterID)}
      ensures el != referenceEl && (old(particleGroup) == null || el != old(referenceEl)) ==>
                el.objects == old(el.objects)
      ensures sceneEl != referenceEl && (old(particleGroup) == null || sceneEl != old(referenceEl)) ==>
                sceneEl.objects == old(sceneEl.objects)
    {
      Rebuild();
      ApplyEnabled();
    }

    /** `remove`: the group is torn down and nothing replaces it. */
    method Remove()
      requires Valid()
      modifies this`particleGroup, el`objects, sceneEl`objects
      ensures particleGroup == null && Valid()
      ensures old(particleGroup) == null ==>
                el.objects == old(el.objects) && sceneEl.objects == old(sceneEl.objects)
      ensures old(particleGroup) != null ==>
                referenceEl.objects == old(referenceEl.objects) - {EmitterName(emitterID)}
      ensures el != referenceEl ==> el.objects == old(el.objects)
      ensures sceneEl != referenceEl ==> sceneEl.objects == old(sceneEl.objects)
    {
      RemoveParticleSystem();
    }

    /**
     * `tick`: in world mode the emitter's position becomes the offset
     * through the entity's current world matrix; in every mode the
     * simulation advances by `dt` milliseconds, given to the engine in seconds.
     */
    method Tick(time: real, dt: real)
      requires Valid() && particleGroup != null
      modifies particleGroup`steps, (particleGroup.emitters[0] as Emitter)`position
      ensures Valid()
      ensures particleGroup.steps == old(particleGroup.steps) + [dt / 1000.0]
      ensures particleGroup.emitters[0].position
           == if data.relative == "world" then applyMatrix4(data.positionOffset, el.matrixWorld)
              else old(particleGroup.emitters[0].position)
    {
      if data.relative == "world" {
        var newPosition := applyMatrix4(data.positionOffset, el.matrixWorld);
        particleGroup.emitters[0].position := newPosition;
      }
      particleGroup.Tick(dt / 1000.0);
    }
  }

  /**
   * Two configuration changes on one activation: both attach under the
   * same name, each builds a distinct group, and toggling `enabled` rebuilds
   * rather than pausing the earlier group.
   */
  method ReconfigureTwice(el: SceneNode, sceneEl: SceneNode, d: Data, applyMatrix4: Transform,
                          counter: IdCounter)
    returns (first: Group, second: Group, firstName: string, secondName: string)
    modifies el`objects, sceneEl`objects, counter
    ensures first != second && firstName == secondName
  {
    var c := new Component(el, sceneEl, d, applyMatrix4);
    c.Init(counter);
    c.Update();
    first := c.particleGroup;
    firstName := c.GetEmitterName();
    c.data := c.data.(enabled := !d.enabled);
    c.Update();
    second := c.particleGroup;
    secondName := c.GetEmitterName();
  }
}
