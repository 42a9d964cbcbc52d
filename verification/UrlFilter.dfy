/** The database admission policy of src/url_filter.rs. */
module UrlFilter {
  import opened Harvest
  import opened Addresses

  const MAX_DNS_ADDRESSES: nat := 64

  datatype Ip = V4(v4: bv32) | V6(v6: bv128)

  predicate IsPublic(ip: Ip) { if ip.V4? then PublicV4(ip.v4) else PublicV6(ip.v6) }

  // ------------------------------------------------------------------------- labels

  /** The labels of a name, split at every dot; an absolute name ends in the empty
      root label. */
  function Split(name: string): (labels: seq<string>)
    ensures labels != []
    decreases |name|
  {
    var dot := Find(name, '.');
    if dot == |name| then [name] else [name[..dot]] + Split(name[dot + 1..])
  }

  function Join(labels: seq<string>): string
    requires labels != []
  {
    if |labels| == 1 then labels[0] else labels[0] + "." + Join(labels[1..])
  }

  lemma {:induction false} JoinOfSplit(name: string)
    ensures Join(Split(name)) == name
    decreases |name|
  {
    var dot := Find(name, '.');
    if dot < |name| {
      JoinOfSplit(name[dot + 1..]);
      assert Split(name)[1..] == Split(name[dot + 1..]);
      assert name == name[..dot] + "." + name[dot + 1..];
    }
  }

  /** Names are equal exactly when their labels are. */
  lemma SplitIsInjective(a: string, b: string)
    ensures Split(a) == Split(b) <==> a == b
  {
    JoinOfSplit(a);
    JoinOfSplit(b);
  }

  predicate IsSuffix<T(==)>(a: seq<T>, b: seq<T>) { |a| <= |b| && b[|b| - |a|..] == a }

  predicate IsLabelChar(c: char) { IsAlphanumeric(c) || c == '-' }

  predicate ValidLabel(l: string) {
    && 0 < |l| <= 63 && l[0] != '-' && l[|l| - 1] != '-'
    && forall i :: 0 <= i < |l| ==> IsLabelChar(l[i])
  }

  function Lower(s: string): (r: string)
    ensures |r| == |s|
    ensures forall i :: 0 <= i < |s| ==> r[i] == if 'A' <= s[i] <= 'Z' then s[i] + ' ' else s[i]
  {
    seq(|s|, i requires 0 <= i < |s| => if 'A' <= s[i] <= 'Z' then s[i] + ' ' else s[i])
  }

  function StripDot(domain: string): string {
    if domain != "" && domain[|domain| - 1] == '.' then domain[..|domain| - 1] else domain
  }

  function DnsName(domain: string): Option<string> {
    var d := StripDot(domain);
    if d != "" && |d| <= 253 && (forall i :: 0 <= i < |Split(d)| ==> ValidLabel(Split(d)[i]))
    then Some(Lower(d) + ".") else None
  }

  /** What every accepted name looks like. */
  predicate Canonical(name: string) {
    var labels := Split(name);
    && |labels| >= 2 && labels[|labels| - 1] == ""
    && forall i :: 0 <= i < |labels| - 1 ==> ValidLabel(labels[i]) && Lower(labels[i]) == labels[i]
  }

  predicate NoDot(s: string) { forall i :: 0 <= i < |s| ==> s[i] != '.' }

  lemma SplitLabel(a: string, b: string)
    requires NoDot(a)
    ensures Split(a + "." + b) == [a] + Split(b)
    ensures Split(a) == [a]
  {
    var s := a + "." + b;
    assert s[|a|] == '.' && forall i :: 0 <= i < |a| ==> s[i] == a[i];
    assert Find(s, '.') == |a|;
    assert s[..|a|] == a && s[|a| + 1..] == b;
  }

  /** A name is one label, or a label, a dot and a shorter name. */
  lemma Parts(name: string) returns (a: string, rest: string)
    ensures NoDot(a)
    ensures name == a || (name == a + "." + rest && |rest| < |name|)
    ensures name == a <==> NoDot(name)
  {
    var dot := Find(name, '.');
    a := name[..dot];
    if dot == |name| {
      rest := "";
      assert a == name;
    } else {
      rest := name[dot + 1..];
      assert name == a + "." + rest;
      assert name[dot] == '.';
    }
  }

  lemma LowerNoDot(a: string)
    requires NoDot(a)
    ensures NoDot(Lower(a))
  {
  }

  lemma LowerOfParts(a: string, rest: string)
    ensures Lower(a + "." + rest) == Lower(a) + "." + Lower(rest)
  {
  }

  function LowerAll(labels: seq<string>): seq<string> {
    seq(|labels|, i requires 0 <= i < |labels| => Lower(labels[i]))
  }

  lemma LowerAllStep(a: string, labels: seq<string>)
    ensures LowerAll([a] + labels) == [Lower(a)] + LowerAll(labels)
    ensures LowerAll([a]) == [Lower(a)]
  {
  }

  /** Lower-casing acts on each label. */
  lemma {:induction false} SplitOfLower(d: string)
    ensures Split(Lower(d)) == LowerAll(Split(d))
    decreases |d|
  {
    var a, rest := Parts(d);
    LowerNoDot(a);
    LowerAllStep(a, Split(rest));
    if d == a {
      SplitLabel(Lower(a), "");
      SplitLabel(a, "");
    } else {
      SplitOfLower(rest);
      SplitLabel(a, rest);
      SplitLabel(Lower(a), Lower(rest));
      LowerOfParts(a, rest);
    }
  }

  /** Closing a name with a dot adds the root label. */
  lemma {:induction false} SplitOfClosed(m: string)
    ensures Split(m + ".") == Split(m) + [""]
    decreases |m|
  {
    var a, rest := Parts(m);
    if m == a {
      SplitOfClosedLabel(a);
    } else {
      SplitOfClosed(rest);
      SplitOfClosedStep(a, rest, Split(rest));
      SplitLabel(a, rest);
      assert [a] + (Split(rest) + [""]) == ([a] + Split(rest)) + [""];
    }
  }

  lemma SplitOfClosedLabel(a: string)
    requires NoDot(a)
    ensures Split(a + ".") == Split(a) + [""]
  {
    SplitLabel("", "");
    SplitLabel(a, "");
    assert a + "." + "" == a + ".";
  }

  lemma SplitOfClosedStep(a: string, rest: string, labels: seq<string>)
    requires NoDot(a) && Split(rest + ".") == labels + [""]
    ensures Split((a + "." + rest) + ".") == [a] + (labels + [""])
  {
    SplitLabel(a, rest + ".");
    ThreeParts(a + ".", rest, ".");
  }

  lemma ThreeParts(a: string, b: string, c: string)
    ensures a + (b + c) == (a + b) + c
  {
  }

  lemma LowerTwice(s: string)
    ensures Lower(Lower(s)) == Lower(s)
  {
  }

  lemma LowerKeepsLabels(l: string)
    requires ValidLabel(l)
    ensures ValidLabel(Lower(l))
  {
  }

  /** An accepted name is canonical and is its own canonical form; on the wire it
      needs at most 255 octets (RFC 1035, section 2.3.4). */
  lemma {:induction false} DnsNameIsCanonical(domain: string)
    ensures DnsName(domain).Some? ==>
      && Canonical(DnsName(domain).value)
      && DnsName(DnsName(domain).value) == DnsName(domain)
      && |DnsName(domain).value| + 1 <= 255
  {
    var d := StripDot(domain);
    if DnsName(domain).Some? {
      var n := DnsName(domain).value;
      var m, labels := Lower(d), Split(d);
      SplitOfLower(d);
      SplitOfClosed(m);
      assert Split(m) == LowerAll(labels) && Split(n) == LowerAll(labels) + [""];
      forall i | 0 <= i < |labels|
        ensures ValidLabel(LowerAll(labels)[i]) && Lower(LowerAll(labels)[i]) == LowerAll(labels)[i]
      {
        LowerKeepsLabels(labels[i]);
        LowerTwice(labels[i]);
      }
      assert StripDot(n) == m;
      LowerTwice(d);
      assert DnsName(n) == Some(Lower(m) + ".");
    }
  }

  /** One to 63 ASCII letters, digits and hyphens, with no hyphen at either end. */
  predicate HostLabel(l: string) {
    && 1 <= |l| <= 63 && l[0] != '-' && l[|l| - 1] != '-'
    && forall c :: c in l ==> 'a' <= c <= 'z' || 'A' <= c <= 'Z' || '0' <= c <= '9' || c == '-'
  }

  /** `domain` is written with these labels, with or without a final dot. */
  predicate WrittenWith(domain: string, labels: seq<string>) {
    && labels != [] && (forall i :: 0 <= i < |labels| ==> HostLabel(labels[i]))
    && |Join(labels)| <= 253 && (domain == Join(labels) || domain == Join(labels) + ".")
  }

  lemma {:induction false} SplitOfJoin(labels: seq<string>)
    requires labels != [] && forall i :: 0 <= i < |labels| ==> HostLabel(labels[i])
    ensures Split(Join(labels)) == labels
    ensures Join(labels) != "" && Join(labels)[|Join(labels)| - 1] != '.'
  {
    assert NoDot(labels[0]) by {
      assert forall i :: 0 <= i < |labels[0]| ==> labels[0][i] in labels[0];
    }
    if |labels| == 1 {
      SplitLabel(labels[0], "");
    } else {
      SplitOfJoin(labels[1..]);
      SplitLabel(labels[0], Join(labels[1..]));
    }
  }

  lemma JoinOfLower(d: string)
    ensures Join(LowerAll(Split(d))) == Lower(d)
  {
    SplitOfLower(d);
    JoinOfSplit(Lower(d));
  }

  lemma HostLabelIsValid(l: string)
    ensures HostLabel(l) <==> ValidLabel(l)
  {
    assert forall i :: 0 <= i < |l| ==> l[i] in l;
  }

  lemma AcceptedIsWritten(domain: string)
    requires DnsName(domain).Some?
    ensures var labels := Split(StripDot(domain));
      WrittenWith(domain, labels) && DnsName(domain).value == Join(LowerAll(labels)) + "."
  {
    var d := StripDot(domain);
    JoinOfSplit(d);
    JoinOfLower(d);
    assert domain == d || domain == d + ".";
    forall i | 0 <= i < |Split(d)| ensures HostLabel(Split(d)[i]) {
      HostLabelIsValid(Split(d)[i]);
    }
  }

  lemma WrittenIsAccepted(domain: string, labels: seq<string>)
    requires WrittenWith(domain, labels)
    ensures DnsName(domain) == Some(Join(LowerAll(labels)) + ".")
  {
    SplitOfJoin(labels);
    var d := Join(labels);
    assert StripDot(domain) == d by { assert (d + ".")[..|d|] == d; }
    JoinOfLower(d);
    forall i | 0 <= i < |labels| ensures ValidLabel(labels[i]) {
      HostLabelIsValid(labels[i]);
    }
  }

  /** Accepted are exactly the names written with such labels, in at most 253 octets;
      what is looked up has the same labels in lower case, and a final dot. */
  lemma DnsNameMeans(domain: string, name: string)
    ensures DnsName(domain) == Some(name) <==>
      exists labels :: WrittenWith(domain, labels) && name == Join(LowerAll(labels)) + "."
  {
    if DnsName(domain).Some? {
      AcceptedIsWritten(domain);
    }
    forall labels | WrittenWith(domain, labels) ensures DnsName(domain) == Some(Join(LowerAll(labels)) + ".") {
      WrittenIsAccepted(domain, labels);
    }
  }

  // -------------------------------------------------------------------- domain rules

  /** A rule blocks its own name and every name below it. */
  predicate Blocks(domains: set<string>, name: string) {
    exists rule :: rule in domains && IsSuffix(Split(rule), Split(name))
  }

  /** The names the search looks up: the name and its parents, but not the root. */
  ghost predicate LooksUp(domains: set<string>, name: string) {
    var labels := Split(name);
    exists k :: 0 <= k < |labels| && (k == 0 || labels[k..] != [""]) && Join(labels[k..]) in domains
  }

  lemma {:induction false} SplitOfParent(name: string, k: nat)
    requires k < |Split(name)|
    ensures Split(Join(Split(name)[k..])) == Split(name)[k..]
    decreases k
  {
    if k == 0 {
      JoinOfSplit(name);
      assert Split(name)[0..] == Split(name);
    } else {
      var dot := Find(name, '.');
      var rest := name[dot + 1..];
      assert Split(name)[k..] == Split(rest)[k - 1..];
      SplitOfParent(rest, k - 1);
    }
  }

  lemma SearchFindsRules(domains: set<string>, name: string)
    requires forall rule :: rule in domains ==> |Split(rule)| >= 2
    ensures Blocks(domains, name) ==> LooksUp(domains, name)
  {
    if Blocks(domains, name) {
      var labels := Split(name);
      var rule :| rule in domains && IsSuffix(Split(rule), labels);
      var k := |labels| - |Split(rule)|;
      JoinOfSplit(rule);
      assert labels[k..] == Split(rule);
      assert Join(labels[k..]) in domains;
    }
  }

  lemma SearchFindsOnlyRules(domains: set<string>, name: string)
    ensures LooksUp(domains, name) ==> Blocks(domains, name)
  {
    if LooksUp(domains, name) {
      var labels := Split(name);
      var k :| 0 <= k < |labels| && (k == 0 || labels[k..] != [""]) && Join(labels[k..]) in domains;
      SplitOfParent(name, k);
      assert IsSuffix(Split(Join(labels[k..])), labels);
    }
  }

  /** Dropping the first label of the name made of `labels[k..]`. */
  lemma ParentLabels(labels: seq<string>, k: nat, suffix: string)
    requires k < |labels| && Split(suffix) == labels[k..] && Find(suffix, '.') < |suffix|
    ensures var rest := suffix[Find(suffix, '.') + 1..];
      k + 1 < |labels| && Split(rest) == labels[k + 1..] && (rest == "" <==> labels[k + 1..] == [""])
      && (rest == "" ==> k + 2 == |labels|)
  {
    var rest := suffix[Find(suffix, '.') + 1..];
    assert labels[k + 1..] == Split(suffix)[1..] == Split(rest);
    JoinOfSplit(rest);
    assert Split("") == [""];
  }

  /** The search implements the rule, for rules in canonical form and any name. */
  lemma SearchIsTheRule(domains: set<string>, name: string)
    requires forall rule :: rule in domains ==> Canonical(rule)
    ensures LooksUp(domains, name) <==> Blocks(domains, name)
  {
    assert forall rule :: rule in domains ==> |Split(rule)| >= 2;
    SearchFindsRules(domains, name);
    SearchFindsOnlyRules(domains, name);
  }

  /** Including a filter blocks exactly what either blocked. */
  lemma BlocksUnion(a: set<string>, b: set<string>, name: string)
    ensures Blocks(a + b, name) <==> Blocks(a, name) || Blocks(b, name)
  {
  }

  // ---------------------------------------------------------------------- the filter

  /** Results of the URL library and of the resolver. */
  datatype Host = Domain(domain: string) | Address(ip: Ip)
  datatype Url = Url(scheme: string, host: Option<Host>)
  datatype Lookup = TimedOut | Failed | Answer(addresses: seq<Ip>)

  predicate AddressesPass(addresses: set<Ip>, answer: seq<Ip>) {
    && 0 < |answer| <= MAX_DNS_ADDRESSES
    && forall ip :: ip in answer ==> ip !in addresses && IsPublic(ip)
  }

  /** The policy: what may be stored, given what the resolver would say. */
  predicate Admits(domains: set<string>, addresses: set<Ip>, url: Option<Url>, lookup: Lookup) {
    && url.Some? && url.value.scheme in {"http", "https"} && url.value.host.Some?
    && match url.value.host.value
       case Address(ip) => ip !in addresses && IsPublic(ip)
       case Domain(d) =>
         && DnsName(d).Some? && !Blocks(domains, DnsName(d).value)
         && lookup.Answer? && AddressesPass(addresses, lookup.addresses)
  }

  predicate Reachable(addresses: set<Ip>, ip: Ip) {
    ip !in addresses && match ip case V4(a) => PublicV4(a) case V6(a) => PublicV6(a)
  }

  /** A name is admitted if and only if it is one, no rule's labels end it, and the
      resolver answers with 1 to 64 addresses every one of which is public and not
      listed: a single other address refuses the whole answer. */
  lemma NamesAreAdmitted(domains: set<string>, addresses: set<Ip>, scheme: string, domain: string, lookup: Lookup)
    ensures Admits(domains, addresses, Some(Url(scheme, Some(Domain(domain)))), lookup) <==>
      && (scheme == "http" || scheme == "https") && DnsName(domain).Some?
      && (forall rule :: rule in domains ==> !IsSuffix(Split(rule), Split(DnsName(domain).value)))
      && lookup.Answer? && 1 <= |lookup.addresses| <= 64
      && forall i :: 0 <= i < |lookup.addresses| ==> Reachable(addresses, lookup.addresses[i])
  {
    assert forall x: Lookup, ip :: x.Answer? && ip in x.addresses ==>
      exists i :: 0 <= i < |x.addresses| && x.addresses[i] == ip;
  }

  /** An address is admitted exactly if it is public and not listed. */
  lemma AddressesAreAdmitted(domains: set<string>, addresses: set<Ip>, scheme: string, ip: Ip, lookup: Lookup)
    ensures Admits(domains, addresses, Some(Url(scheme, Some(Address(ip)))), lookup) <==>
      (scheme == "http" || scheme == "https") && Reachable(addresses, ip)
    ensures !Admits(domains, addresses, Some(Url(scheme, None)), lookup) && !Admits(domains, addresses, None, lookup)
  {
  }

  /** Unicode white space or control characters. */
  predicate SpaceOrControl(c: char) {
    var n := c as int;
    || n <= 0x20 || 0x7F <= n <= 0xA0 || n == 0x1680 || 0x2000 <= n <= 0x200A
    || n in {0x2028, 0x2029, 0x202F, 0x205F, 0x3000}
  }

  predicate PlainRule(rule: string) {
    rule != "" && forall i :: 0 <= i < |rule| ==>
      !SpaceOrControl(rule[i]) && rule[i] !in {'/', '?', '#', '@', '%', '*', '\\'}
  }

  class UrlFilter {
    var domains: set<string>
    var addresses: set<Ip>

    ghost predicate Valid() reads this { forall rule :: rule in domains ==> Canonical(rule) }

    constructor ()
      ensures Valid() && domains == {} && addresses == {}
    {
      domains, addresses := {}, {};
    }

    /** `literal` and `parsed` are the address and host parsers' results for `rule`. */
    method Add(rule: string, literal: Option<Ip>, parsed: Option<Host>) returns (ok: bool)
      requires Valid()
      modifies this
      ensures Valid()
      ensures ok <==>
        literal.Some? ||
        (PlainRule(rule) && parsed.Some? && (parsed.value.Domain? ==> DnsName(parsed.value.domain).Some?))
      ensures literal.None? && rule == "" ==> !ok
      ensures forall c :: literal.None? && c in rule && (c <= ' ' || c in {'/', '?', '#', '@', '%', '*', '\\'}) ==> !ok
      ensures domains == if ok && literal.None? && parsed.value.Domain?
                         then old(domains) + {DnsName(parsed.value.domain).value} else old(domains)
      ensures addresses == if literal.Some? then old(addresses) + {literal.value}
                           else if ok && parsed.value.Address?
                              then old(addresses) + {parsed.value.ip} else old(addresses)
    {
      if literal.Some? {
        addresses := addresses + {literal.value};
        return true;
      }
      if !PlainRule(rule) || parsed.None? { return false; }
      if parsed.value.Address? {
        addresses := addresses + {parsed.value.ip};
        return true;
      }
      var name := DnsName(parsed.value.domain);
      if name.None? { return false; }
      DnsNameIsCanonical(parsed.value.domain);
      domains := domains + {name.value};
      return true;
    }

    method Include(other: UrlFilter)
      requires Valid() && other.Valid()
      modifies this
      ensures Valid()
      ensures domains == old(domains) + old(other.domains) && addresses == old(addresses) + old(other.addresses)
      ensures forall name :: Blocks(domains, name) <==> Blocks(old(domains), name) || Blocks(old(other.domains), name)
    {
      forall name
        ensures Blocks(domains + other.domains, name) <==> Blocks(domains, name) || Blocks(other.domains, name)
      {
        BlocksUnion(domains, other.domains, name);
      }
      domains := domains + other.domains;
      addresses := addresses + other.addresses;
    }

    method BlocksDomain(name: string) returns (blocked: bool)
      ensures blocked <==> LooksUp(domains, name)
    {
      ghost var labels := Split(name);
      var suffix := name;
      ghost var k := 0;
      assert labels[0..] == labels;
      JoinOfSplit(name);
      while true
        invariant 0 <= k < |labels| && Split(suffix) == labels[k..] && (k == 0 || labels[k..] != [""])
        invariant forall j :: 0 <= j < k ==> Join(labels[j..]) !in domains
        decreases |labels| - k
      {
        JoinOfSplit(suffix);
        if suffix in domains { return true; }
        var dot := Find(suffix, '.');
        if dot == |suffix| {
          assert k == |labels| - 1;
          return false;
        }
        var rest := suffix[dot + 1..];
        ParentLabels(labels, k, suffix);
        if rest == "" { return false; }
        suffix, k := rest, k + 1;
      }
    }

    /** The resolver is asked only about names that no rule blocks. */
    method Check(url: Option<Url>, resolve: string -> Lookup) returns (ok: bool, asked: bool)
      requires Valid()
      ensures var name := if url.Some? && url.value.host.Some? && url.value.host.value.Domain?
                          then DnsName(url.value.host.value.domain) else None;
        && (ok <==> Admits(domains, addresses, url, if name.Some? then resolve(name.value) else Failed))
        && (asked <==> name.Some? && url.value.scheme in {"http", "https"} && !Blocks(domains, name.value))
    {
      asked := false;
      if url.None? || url.value.scheme !in {"http", "https"} || url.value.host.None? { return false, asked; }
      var answer: seq<Ip>;
      if url.value.host.value.Domain? {
        var name := DnsName(url.value.host.value.domain);
        if name.None? { return false, asked; }
        var blocked := BlocksDomain(name.value);
        SearchIsTheRule(domains, name.value);
        if blocked { return false, asked; }
        asked := true;
        var lookup := resolve(name.value);
        if !lookup.Answer? { return false, asked; }
        answer := lookup.addresses;
      } else {
        answer := [url.value.host.value.ip];
      }
      ok := CheckAddresses(answer);
    }

    method CheckAddresses(answer: seq<Ip>) returns (ok: bool)
      ensures ok <==> AddressesPass(addresses, answer)
    {
      if answer == [] || |answer| > MAX_DNS_ADDRESSES { return false; }
      if exists ip :: ip in answer && ip in addresses { return false; }
      if exists ip :: ip in answer && !IsPublic(ip) { return false; }
      return true;
    }
  }
}
