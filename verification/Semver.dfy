/** Version comparison (internal/semver), which wraps a library: all that is used of it is
    that it orders versions, equal precedence allowed, as section 11 of Semantic Versioning
    2.0.0 does. */
module Semver {
  type Compare = (string, string) -> int

  ghost predicate TotalPreorder(cmp: Compare) {
    && (forall a, b :: cmp(a, b) <= 0 <==> cmp(b, a) >= 0)
    && (forall a, b, c :: cmp(a, b) <= 0 && cmp(b, c) <= 0 ==> cmp(a, c) <= 0)
  }
}
