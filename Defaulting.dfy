/** `mergo.Merge(dst, src)` without the override option, for the
    component spec: every field of `dst` that holds its zero value is
    filled from `src`; every other field of `dst` is kept. Nested
    structs (the image, the resources) are merged field by field. */
module Defaulting {
  import opened Api
  import opened K8s

  /** The spec in which the user has set nothing. */
  const Unset: ComponentSpec :=
    ComponentSpec(ImageSpec("", ""), "", "", ResourceRequirements(map[], map[]), map[], map[])

  function Fill<T(==)>(dst: T, src: T, zero: T): T {
    if dst == zero then src else dst
  }

  /** Every field `a` sets is set to the same value in `b`. */
  predicate Keeps(a: ComponentSpec, b: ComponentSpec) {
    && (a.image.repository != "" ==> b.image.repository == a.image.repository)
    && (a.image.tag != "" ==> b.image.tag == a.image.tag)
    && (a.grpcAddress != "" ==> b.grpcAddress == a.grpcAddress)
    && (a.httpAddress != "" ==> b.httpAddress == a.httpAddress)
    && (a.resources.limits != map[] ==> b.resources.limits == a.resources.limits)
    && (a.resources.requests != map[] ==> b.resources.requests == a.resources.requests)
    && (a.labels != map[] ==> b.labels == a.labels)
    && (a.annotations != map[] ==> b.annotations == a.annotations)
  }

  /** Every field `dst` leaves unset holds, in `r`, the value it has in `src`. */
  predicate FillsFrom(dst: ComponentSpec, src: ComponentSpec, r: ComponentSpec) {
    && (dst.image.repository == "" ==> r.image.repository == src.image.repository)
    && (dst.image.tag == "" ==> r.image.tag == src.image.tag)
    && (dst.grpcAddress == "" ==> r.grpcAddress == src.grpcAddress)
    && (dst.httpAddress == "" ==> r.httpAddress == src.httpAddress)
    && (dst.resources.limits == map[] ==> r.resources.limits == src.resources.limits)
    && (dst.resources.requests == map[] ==> r.resources.requests == src.resources.requests)
    && (dst.labels == map[] ==> r.labels == src.labels)
    && (dst.annotations == map[] ==> r.annotations == src.annotations)
  }

  /** No field is left at its zero value. */
  predicate Complete(s: ComponentSpec) {
    && s.image.repository != "" && s.image.tag != ""
    && s.grpcAddress != "" && s.httpAddress != ""
    && s.resources.limits != map[] && s.resources.requests != map[]
    && s.labels != map[] && s.annotations != map[]
  }

  function Merge(dst: ComponentSpec, src: ComponentSpec): (r: ComponentSpec)
    ensures Keeps(dst, r)
    ensures FillsFrom(dst, src, r)
  {
    ComponentSpec(
      ImageSpec(Fill(dst.image.repository, src.image.repository, ""),
                Fill(dst.image.tag, src.image.tag, "")),
      Fill(dst.grpcAddress, src.grpcAddress, ""),
      Fill(dst.httpAddress, src.httpAddress, ""),
      ResourceRequirements(Fill(dst.resources.limits, src.resources.limits, map[]),
                           Fill(dst.resources.requests, src.resources.requests, map[])),
      Fill(dst.labels, src.labels, map[]),
      Fill(dst.annotations, src.annotations, map[]))
  }

  /** A user who sets nothing gets exactly the default. */
  lemma MergeUnset(d: ComponentSpec)
    ensures Merge(Unset, d) == d
  {
  }

  /** A user who sets everything gets exactly what they wrote. */
  lemma MergeComplete(u: ComponentSpec, d: ComponentSpec)
    requires Complete(u)
    ensures Merge(u, d) == u
  {
  }

  /** Merging with nothing changes nothing. */
  lemma MergeWithUnset(u: ComponentSpec)
    ensures Merge(u, Unset) == u
  {
  }

  /** With a complete default, the merged spec has no field left unset. */
  lemma MergeCompletes(u: ComponentSpec, d: ComponentSpec)
    requires Complete(d)
    ensures Complete(Merge(u, d))
  {
  }

  /** Merging the same default twice is merging it once. */
  lemma MergeIdempotent(u: ComponentSpec, d: ComponentSpec)
    ensures Merge(Merge(u, d), d) == Merge(u, d)
  {
  }

  /** Merging a chain of sources in either grouping gives the same spec. */
  lemma MergeAssociative(a: ComponentSpec, b: ComponentSpec, c: ComponentSpec)
    ensures Merge(Merge(a, b), c) == Merge(a, Merge(b, c))
  {
  }

  /** The merge is the only spec that keeps what the user set and
      takes the rest from the default. */
  lemma MergeUnique(u: ComponentSpec, d: ComponentSpec, r: ComponentSpec)
    requires Keeps(u, r) && FillsFrom(u, d, r)
    ensures r == Merge(u, d)
  {
  }
}
