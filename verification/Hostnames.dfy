/** Host name matching (internal/transport/hostnames.go). */
module Hostnames {
  import opened Text

  const MIN_MATCH_LEN: nat := 6

  function ShortName(h: string): string {
    Before(TrimSuffix(h, ".local"), '.')
  }

  predicate HostsMatch(a: string, b: string) {
    var sa, sb := ShortName(a), ShortName(b);
    if sa == "" || sb == "" then false
    else if sa == sb then true
    else
      var (long, short) := if |sa| > |sb| then (sa, sb) else (sb, sa);
      |short| >= MIN_MATCH_LEN && HasSuffix(long, "-" + short)
  }
}
