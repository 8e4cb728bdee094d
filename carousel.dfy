/** The hero image carousel: a fixed list of slides and the successor step an
    interval timer applies to the active slide index. */
module Carousel {

  /** One gallery item; the hero image shows its `url`. */
  datatype Slide = Slide(url: string, title: string, sub: string)

  const Gallery: seq<Slide> := [
    Slide("https://images.pexels.com/photos/1483880/pexels-photo-1483880.jpeg?auto=compress&cs=tinysrgb&w=1260",
          "Pure Organic", "Carbon Enrichment"),
    Slide("https://images.pexels.com/photos/235925/pexels-photo-235925.jpeg?auto=compress&cs=tinysrgb&w=1260",
          "Soil Health", "Microbial Science"),
    Slide("https://images.pexels.com/photos/2165688/pexels-photo-2165688.jpeg?auto=compress&cs=tinysrgb&w=1260",
          "Golden Yields", "Farmer Prosperity")
  ]

  /** The index the active slide starts at. */
  const FirstSlide: nat := 0

  /** `(prev + 1) % galleryItems.length`; `prev` is never negative, so the
      truncating JavaScript remainder and Dafny's agree. */
  function Next(prev: nat): (r: nat)
    ensures r < |Gallery|
    ensures prev + 1 < |Gallery| ==> r == prev + 1
    ensures prev + 1 == |Gallery| ==> r == 0
  {
    (prev + 1) % |Gallery|
  }

  /** The active slide after `k` ticks from `start`. */
  function TickN(start: nat, k: nat): nat
    decreases k
  {
    if k == 0 then start else Next(TickN(start, k - 1))
  }

  /** From a valid index, `k` ticks advance the index by `k` modulo the gallery size. */
  lemma {:induction false} TickNAdvances(start: nat, k: nat)
    requires start < |Gallery|
    ensures TickN(start, k) == (start + k) % |Gallery|
    decreases k
  {
    if k > 0 {
      TickNAdvances(start, k - 1);
    }
  }

  /** The active slide is always a valid gallery index. */
  lemma TickNInRange(start: nat, k: nat)
    requires start < |Gallery|
    ensures TickN(start, k) < |Gallery|
  {
  }

  /** After a whole number of rounds of `|Gallery|` ticks the slide is back where it started. */
  lemma {:induction false} TickNPeriodic(start: nat, rounds: nat)
    requires start < |Gallery|
    ensures TickN(start, rounds * |Gallery|) == start
  {
    TickNAdvances(start, rounds * |Gallery|);
  }
}
