/** Sequence predicates on strings shared by the naming modules. */
module Strings {

  /** `suffix` is a suffix of `s`. */
  predicate IsSuffix(suffix: string, s: string)
  {
    |suffix| <= |s| && s[|s| - |suffix|..] == suffix
  }

  /** `name` lies in the DNS zone `zone`: it is the zone's apex or ends in a
      dot followed by the zone, so the match is aligned on a label boundary. */
  predicate InZone(zone: string, name: string)
  {
    name == zone || IsSuffix("." + zone, name)
  }
}
