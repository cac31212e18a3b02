/**
 * The two lookup tables of the rendering libraries that the component
 * indexes by name: `SPE.distributions` (taken to have exactly the keys
 * `BOX`, `SPHERE` and `DISC`) and the `...Blending` constants of `THREE`.
 * Looking up a missing key yields `undefined`, modelled as `None`.
 */
module Engine {
  import opened Wrappers

  /** The values of `SPE.distributions`. */
  datatype Distribution = Box | Sphere | Disc

  /** The key under which each distribution is stored in `SPE.distributions`. */
  function DistributionKey(d: Distribution): string
  {
    match d
    case Box => "BOX"
    case Sphere => "SPHERE"
    case Disc => "DISC"
  }

  /** `SPE.distributions[name]`. */
  function DistributionNamed(name: string): (r: Option<Distribution>)
    ensures r.Some? ==> DistributionKey(r.value) == name
    ensures r.None? ==> forall d: Distribution :: DistributionKey(d) != name
  {
    if name == "BOX" then Some(Box)
    else if name == "SPHERE" then Some(Sphere)
    else if name == "DISC" then Some(Disc)
    else None
  }

  /** `name in SPE.distributions`. */
  predicate IsDistributionKey(name: string)
  {
    DistributionNamed(name).Some?
  }

  /** Every distribution is found under its own key. */
  lemma DistributionKeyRoundTrip(d: Distribution)
    ensures DistributionNamed(DistributionKey(d)) == Some(d)
  {
  }

  /** The blending constants of THREE (values 0 to 5 there). */
  datatype Blending =
    | NoBlending | NormalBlending | AdditiveBlending
    | SubtractiveBlending | MultiplyBlending | CustomBlending

  /** The name of each constant as a property of the `THREE` namespace. */
  function BlendingKey(b: Blending): string
  {
    match b
    case NoBlending => "NoBlending"
    case NormalBlending => "NormalBlending"
    case AdditiveBlending => "AdditiveBlending"
    case SubtractiveBlending => "SubtractiveBlending"
    case MultiplyBlending => "MultiplyBlending"
    case CustomBlending => "CustomBlending"
  }

  /** Every constant is found under its own name. */
  lemma BlendingKeyRoundTrip(b: Blending)
    ensures BlendingNamed(BlendingKey(b)) == Some(b)
  {
  }

  /** `THREE[name]`, restricted to the blending constants. */
  function BlendingNamed(name: string): (r: Option<Blending>)
    ensures r.Some? ==> BlendingKey(r.value) == name
    ensures r.None? ==> forall b: Blending :: BlendingKey(b) != name
  {
    if name == "NoBlending" then Some(NoBlending)
    else if name == "NormalBlending" then Some(NormalBlending)
    else if name == "AdditiveBlending" then Some(AdditiveBlending)
    else if name == "SubtractiveBlending" then Some(SubtractiveBlending)
    else if name == "MultiplyBlending" then Some(MultiplyBlending)
    else if name == "CustomBlending" then Some(CustomBlending)
    else None
  }
}
