/** Nearest catalog object to a J2000 direction, within an acceptance
    threshold. */
module Matcher {
  import opened Angles
  import opened RealMath
  import opened Spherical
  import opened Catalog

  /** What the matcher reports: tag, display name and link. */
  datatype Display = Display(tag: string, name: string, link: string)

  /** The "no match" result. */
  const NO_MATCH: Display := Display("-", "-", "-")

  /** The acceptance threshold, in degrees, inclusive. */
  const THRESHOLD_DEG: real := 10.0

  function DisplayOf(o: MObj): (d: Display)
    ensures d != NO_MATCH
    ensures d.tag == o.tag && d.name == o.name && d.link == o.link
  {
    Display(o.tag, o.name, o.link)
  }

  /** Separation of catalog entry `o` from the query direction. */
  function Separation(t: Trig, raJ: real, decJ: real, o: MObj): real {
    AngularSeparation(t, raJ, decJ, o.raRad, o.decRad)
  }

  /** The separations of all entries of `cat`, in table order. */
  function Separations(t: Trig, cat: seq<MObj>, raJ: real, decJ: real): (ds: seq<real>)
    ensures |ds| == |cat|
    ensures forall j | 0 <= j < |cat| :: ds[j] == Separation(t, raJ, decJ, cat[j])
  {
    seq(|cat|, j requires 0 <= j < |cat| => Separation(t, raJ, decJ, cat[j]))
  }

  /** The index of the first least value among `ds[..n]`, computed as the
      scan does: a later value takes over only when strictly smaller. */
  function FirstLeast(ds: seq<real>, n: nat): (i: nat)
    requires 0 < n <= |ds|
    ensures i < n
  {
    if n == 1 then 0
    else
      var k := FirstLeast(ds, n - 1);
      if ds[n - 1] < ds[k] then n - 1 else k
  }

  /** `FirstLeast` is an argmin, and the first one: no value among `ds[..n]`
      is smaller, and every earlier value is strictly larger. */
  lemma {:induction false} FirstLeastIsFirstMinimum(ds: seq<real>, n: nat)
    requires 0 < n <= |ds|
    ensures forall j | 0 <= j < n :: ds[FirstLeast(ds, n)] <= ds[j]
    ensures forall j | 0 <= j < FirstLeast(ds, n) :: ds[FirstLeast(ds, n)] < ds[j]
  {
    if n > 1 {
      FirstLeastIsFirstMinimum(ds, n - 1);
    }
  }

  /** The index of the entry the scan over `cat` settles on: the first one
      at the least separation. */
  function NearestIndex(t: Trig, cat: seq<MObj>, raJ: real, decJ: real): (i: nat)
    requires 0 < |cat|
    ensures i < |cat|
  {
    FirstLeast(Separations(t, cat, raJ, decJ), |cat|)
  }

  /** No entry is nearer than the one at `NearestIndex`, and every earlier
      entry is strictly farther. */
  lemma NearestIndexIsFirstNearest(t: Trig, cat: seq<MObj>, raJ: real, decJ: real)
    requires 0 < |cat|
    ensures var i := NearestIndex(t, cat, raJ, decJ);
      && (forall j | 0 <= j < |cat| ::
            Separation(t, raJ, decJ, cat[i]) <= Separation(t, raJ, decJ, cat[j]))
      && (forall j | 0 <= j < i ::
            Separation(t, raJ, decJ, cat[i]) < Separation(t, raJ, decJ, cat[j]))
  {
    FirstLeastIsFirstMinimum(Separations(t, cat, raJ, decJ), |cat|);
  }

  /** The outcome of the scan over `cat`: the nearest entry if it lies within
      the threshold, otherwise (and for an empty catalog) "no match". */
  function Match(t: Trig, cat: seq<MObj>, raJ: real, decJ: real): (r: Display)
    ensures |cat| == 0 ==> r == NO_MATCH
    ensures r != NO_MATCH ==> exists i | 0 <= i < |cat| :: r == DisplayOf(cat[i])
  {
    if |cat| == 0 then NO_MATCH
    else
      var i := NearestIndex(t, cat, raJ, decJ);
      if RadToDeg(Separation(t, raJ, decJ, cat[i])) <= THRESHOLD_DEG then DisplayOf(cat[i])
      else NO_MATCH
  }

  /** The scan of `findNearestMessier`: one pass over the table keeping the
      entry seen so far at the least separation. A later entry replaces it
      only when strictly nearer, so the first of equally near entries is
      kept. The source starts the best separation at positive infinity;
      here `found` is false until the first entry has been looked at, and
      an empty table leaves the result at "no match". */
  method FindNearest(t: Trig, catalog: seq<MObj>, raJ: real, decJ: real) returns (r: Display)
    ensures r == Match(t, catalog, raJ, decJ)
  {
    var best := NO_MATCH;
    var bestAng := 0.0;
    var found := false;
    ghost var bestIdx := 0;
    ghost var ds := Separations(t, catalog, raJ, decJ);
    for k := 0 to |catalog|
      invariant found <==> 0 < k
      invariant !found ==> best == NO_MATCH
      invariant found ==> bestIdx == FirstLeast(ds, k) && bestAng == ds[bestIdx]
      invariant found ==> best == DisplayOf(catalog[bestIdx])
    {
      var m := catalog[k];
      var ang := AngularSeparation(t, raJ, decJ, m.raRad, m.decRad);
      assert ang == ds[k];
      if !found || ang < bestAng {
        bestAng := ang;
        best := Display(m.tag, m.name, m.link);
        found := true;
        bestIdx := k;
      }
    }
    r := if found && RadToDeg(bestAng) <= THRESHOLD_DEG then best else NO_MATCH;
  }

  /** `findNearestMessier`: the scan over the Messier table. */
  method FindNearestMessier(t: Trig, raJ: real, decJ: real) returns (r: Display)
    ensures r == Match(t, Messier, raJ, decJ)
  {
    r := FindNearest(t, Messier, raJ, decJ);
  }

  /** When the matcher reports an entry, it is an entry of the catalog that
      lies within the threshold and no entry is nearer. */
  lemma MatchIsNearest(t: Trig, cat: seq<MObj>, raJ: real, decJ: real)
    requires Match(t, cat, raJ, decJ) != NO_MATCH
    ensures exists i | 0 <= i < |cat| ::
      && Match(t, cat, raJ, decJ) == DisplayOf(cat[i])
      && RadToDeg(Separation(t, raJ, decJ, cat[i])) <= THRESHOLD_DEG
      && forall j | 0 <= j < |cat| ::
           Separation(t, raJ, decJ, cat[i]) <= Separation(t, raJ, decJ, cat[j])
  {
    var i := NearestIndex(t, cat, raJ, decJ);
    NearestIndexIsFirstNearest(t, cat, raJ, decJ);
    assert Match(t, cat, raJ, decJ) == DisplayOf(cat[i]);
  }

  /** "No match" is reported exactly when every entry lies farther than the
      threshold (in particular, when the nearest one does). */
  lemma NoMatchExactlyWhenAllFar(t: Trig, cat: seq<MObj>, raJ: real, decJ: real)
    ensures Match(t, cat, raJ, decJ) == NO_MATCH <==>
      forall j | 0 <= j < |cat| :: RadToDeg(Separation(t, raJ, decJ, cat[j])) > THRESHOLD_DEG
  {
    if |cat| > 0 {
      var i := NearestIndex(t, cat, raJ, decJ);
      NearestIndexIsFirstNearest(t, cat, raJ, decJ);
      forall j | 0 <= j < |cat|
        ensures RadToDeg(Separation(t, raJ, decJ, cat[i])) <= RadToDeg(Separation(t, raJ, decJ, cat[j]))
      {
        RadToDegMonotone(Separation(t, raJ, decJ, cat[i]), Separation(t, raJ, decJ, cat[j]));
      }
    }
  }

  /** Querying the exact position of any catalog entry never yields "no
      match". */
  lemma CatalogPositionAlwaysMatches(t: Trig, cat: seq<MObj>, k: nat)
    requires Lawful(t)
    requires k < |cat|
    ensures Match(t, cat, cat[k].raRad, cat[k].decRad) != NO_MATCH
  {
    NoMatchExactlyWhenAllFar(t, cat, cat[k].raRad, cat[k].decRad);
    assert RadToDeg(Separation(t, cat[k].raRad, cat[k].decRad, cat[k])) == 0.0;
  }

  /** Of two entries at the same position, the later one is never the
      nearest. */
  lemma {:induction false} LaterTwinNeverNearest(t: Trig, cat: seq<MObj>, a: nat, b: nat, raJ: real, decJ: real)
    requires a < b < |cat|
    requires cat[a].raRad == cat[b].raRad && cat[a].decRad == cat[b].decRad
    ensures NearestIndex(t, cat, raJ, decJ) != b
  {
    var i := NearestIndex(t, cat, raJ, decJ);
    NearestIndexIsFirstNearest(t, cat, raJ, decJ);
    if i == b {
      assert false;
    }
  }

  /** m91 sits at the position of m85, which comes first. */
  lemma M91ShadowedByM85(t: Trig, raJ: real, decJ: real)
    ensures Messier[84].tag == "m85" && Messier[90].tag == "m91"
    ensures NearestIndex(t, Messier, raJ, decJ) != 90
  {
    LaterTwinNeverNearest(t, Messier, 84, 90, raJ, decJ);
  }

  /** m96 sits at the position of m95, which comes first. */
  lemma M96ShadowedByM95(t: Trig, raJ: real, decJ: real)
    ensures Messier[94].tag == "m95" && Messier[95].tag == "m96"
    ensures NearestIndex(t, Messier, raJ, decJ) != 95
  {
    LaterTwinNeverNearest(t, Messier, 94, 95, raJ, decJ);
  }

  /** m105 sits at the position of m95, which comes first. */
  lemma M105ShadowedByM95(t: Trig, raJ: real, decJ: real)
    ensures Messier[94].tag == "m95" && Messier[104].tag == "m105"
    ensures NearestIndex(t, Messier, raJ, decJ) != 104
  {
    LaterTwinNeverNearest(t, Messier, 94, 104, raJ, decJ);
  }

  /** m99 sits at the position of m98, which comes first. */
  lemma M99ShadowedByM98(t: Trig, raJ: real, decJ: real)
    ensures Messier[97].tag == "m98" && Messier[98].tag == "m99"
    ensures NearestIndex(t, Messier, raJ, decJ) != 98
  {
    LaterTwinNeverNearest(t, Messier, 97, 98, raJ, decJ);
  }

  /** m100 sits at the position of m98, which comes first. */
  lemma M100ShadowedByM98(t: Trig, raJ: real, decJ: real)
    ensures Messier[97].tag == "m98" && Messier[99].tag == "m100"
    ensures NearestIndex(t, Messier, raJ, decJ) != 99
  {
    LaterTwinNeverNearest(t, Messier, 97, 99, raJ, decJ);
  }

  /** m101 sits at the position of m98, which comes first. */
  lemma M101ShadowedByM98(t: Trig, raJ: real, decJ: real)
    ensures Messier[97].tag == "m98" && Messier[100].tag == "m101"
    ensures NearestIndex(t, Messier, raJ, decJ) != 100
  {
    LaterTwinNeverNearest(t, Messier, 97, 100, raJ, decJ);
  }

  /** m102 sits at the position of m98, which comes first. */
  lemma M102ShadowedByM98(t: Trig, raJ: real, decJ: real)
    ensures Messier[97].tag == "m98" && Messier[101].tag == "m102"
    ensures NearestIndex(t, Messier, raJ, decJ) != 101
  {
    LaterTwinNeverNearest(t, Messier, 97, 101, raJ, decJ);
  }

  /** m103 sits at the position of m98, which comes first. */
  lemma M103ShadowedByM98(t: Trig, raJ: real, decJ: real)
    ensures Messier[97].tag == "m98" && Messier[102].tag == "m103"
    ensures NearestIndex(t, Messier, raJ, decJ) != 102
  {
    LaterTwinNeverNearest(t, Messier, 97, 102, raJ, decJ);
  }
}
