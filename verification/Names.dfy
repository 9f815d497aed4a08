/** Name derivation of pkg/builders/k8s/helpers.go, on ASCII strings. */
module Names {
  import opened Text

  const MAX_NAME: nat := 63

  /** DNS-safe base name of a component's Kubernetes resources. */
  function DeriveResourceName(instance: string): string {
    TrimRight(Truncate(ReplaceAll(ToLower(instance), '_', '-'), MAX_NAME), '-')
  }

  /** The container name before its first and last character are repaired. */
  function CleanContainerName(compType: string): string {
    Truncate(ReplaceAll(ToLower(ReplaceAll(compType, ' ', '-')), '_', '-'), MAX_NAME)
  }

  function RepairStart(name: string): string
    requires name != ""
  {
    if IsAlnum(name[0]) then name else Truncate("c-" + name, MAX_NAME)
  }

  function RepairEnd(name: string): string
    requires name != ""
  {
    if IsAlnum(name[|name| - 1]) then name else name[..|name| - 1] + "c"
  }

  function DeriveContainerName(compType: string): string {
    var name := CleanContainerName(compType);
    if name == "" then "container" else RepairEnd(RepairStart(name))
  }

  /** A name the custom resource's validation pattern and length limit accept. */
  predicate CrdValid(name: string) {
    && 2 <= |name| <= MAX_NAME
    && IsAlnum(name[0]) && IsAlnum(name[|name| - 1])
    && forall i :: 0 <= i < |name| ==> IsAlnum(name[i]) || name[i] in {'-', '_', '.'}
  }

  /** A host label: section 2.1 of RFC 1123, at most 63 octets as in section 2.3.4 of RFC 1035. */
  predicate HostLabel(name: string) {
    && 1 <= |name| <= MAX_NAME
    && IsAlnum(name[0]) && IsAlnum(name[|name| - 1])
    && forall i :: 0 <= i < |name| ==> IsAlnum(name[i]) || name[i] == '-'
  }

  predicate PlainText(s: string) {
    forall i :: 0 <= i < |s| ==> IsAlnum(Lower(s[i])) || s[i] in {' ', '-', '_'}
  }

  /** Already in the image of the sanitiser: short, no capitals, no underscore, no final hyphen. */
  predicate Sanitised(s: string) {
    && |s| <= MAX_NAME
    && (forall i :: 0 <= i < |s| ==> Lower(s[i]) == s[i] && s[i] != '_')
    && (s != "" ==> s[|s| - 1] != '-')
  }

  /** The sanitiser's fixed points are exactly the names it can produce. */
  lemma ResourceNameFixedPoints(s: string)
    ensures Sanitised(DeriveResourceName(s))
    ensures DeriveResourceName(s) == s <==> Sanitised(s)
  {
    var lowered := ReplaceAll(ToLower(s), '_', '-');
    var cut := Truncate(lowered, MAX_NAME);
    var r := TrimRight(cut, '-');
    if Sanitised(s) {
      assert lowered == s;
      assert cut == s;
      assert r == s;
    }
  }

  /** Character by character: capitals become small, underscores become hyphens, and nothing is cut
      but what lies beyond 63 characters and the hyphens and underscores before the cut. */
  lemma ResourceNameCharacters(s: string)
    ensures var r := DeriveResourceName(s);
            && |r| <= |s| && |r| <= 63 && (r != "" ==> r[|r| - 1] != '-')
            && (forall i :: 0 <= i < |r| ==>
                  r[i] == if s[i] == '_' then '-'
                          else if 'A' <= s[i] <= 'Z' then (s[i] as int + 32) as char else s[i])
            && forall i :: |r| <= i < |s| && i < 63 ==> s[i] == '_' || s[i] == '-'
  {
    var lowered := ReplaceAll(ToLower(s), '_', '-');
    var cut := Truncate(lowered, MAX_NAME);
    var r := TrimRight(cut, '-');
    assert forall i :: 0 <= i < |r| ==> r[i] == cut[i] == lowered[i];
    assert forall i :: |r| <= i < |cut| ==> cut[i] == lowered[i] == '-';
  }

  lemma ResourceNameIdempotent(s: string)
    ensures DeriveResourceName(DeriveResourceName(s)) == DeriveResourceName(s)
    ensures |DeriveResourceName(s)| <= MAX_NAME
  {
    ResourceNameFixedPoints(s);
    ResourceNameFixedPoints(DeriveResourceName(s));
  }

  /** For names the custom resource admits, the raw name that the health check looks up
      is the name the StatefulSet was built with exactly when it has no underscore. */
  lemma HealthCheckLooksUpBuiltName(name: string)
    requires CrdValid(name)
    ensures DeriveResourceName(name) == name <==> '_' !in name
  {
    ResourceNameFixedPoints(name);
  }

  /** Lower-casing hides nothing the container-name repair looks at. */
  lemma CleanedCharacters(s: string)
    ensures var n := CleanContainerName(s);
            forall i :: 0 <= i < |n| ==> Lower(n[i]) == n[i] && n[i] !in {' ', '_'}
    ensures PlainText(s) ==> var n := CleanContainerName(s);
            forall i :: 0 <= i < |n| ==> IsAlnum(n[i]) || n[i] == '-'
  {
  }

  /** Repairing both ends keeps every other character and makes the ends alphanumeric. */
  lemma RepairedEnds(c: string)
    requires 1 <= |c| <= MAX_NAME
    requires forall i :: 0 <= i < |c| ==> Lower(c[i]) == c[i] && c[i] !in {' ', '_'}
    ensures var n := RepairEnd(RepairStart(c));
            && 1 <= |n| <= MAX_NAME && IsAlnum(n[0]) && IsAlnum(n[|n| - 1])
            && (forall i :: 0 <= i < |n| ==> n[i] in c || n[i] in {'c', '-'})
  {
    var r := RepairStart(c);
    assert IsAlnum(r[0]) && 1 <= |r| <= MAX_NAME;
    assert forall i :: 0 <= i < |r| ==> r[i] in c || r[i] in {'c', '-'};
  }

  lemma ContainerNameShape(s: string)
    ensures var n := DeriveContainerName(s);
            1 <= |n| <= MAX_NAME && IsAlnum(n[0]) && IsAlnum(n[|n| - 1])
    ensures var n := DeriveContainerName(s);
            forall i :: 0 <= i < |n| ==> Lower(n[i]) == n[i] && n[i] !in {' ', '_'}
    ensures PlainText(s) ==> HostLabel(DeriveContainerName(s))
  {
    CleanedCharacters(s);
    var c := CleanContainerName(s);
    if c != "" {
      RepairedEnds(c);
    }
  }

  /** What becomes of one character of a component type. */
  function Cleaned(c: char): char {
    if c == ' ' || c == '_' then '-' else if 'A' <= c <= 'Z' then (c as int + 32) as char else c
  }

  lemma CleanedName(s: string)
    ensures var c := CleanContainerName(s);
            |c| == (if |s| > 63 then 63 else |s|) && forall i :: 0 <= i < |c| ==> c[i] == Cleaned(s[i])
  {
    var spaceless := ReplaceAll(s, ' ', '-');
    var lowered := ToLower(spaceless);
    var whole := ReplaceAll(lowered, '_', '-');
    assert forall i :: 0 <= i < |s| ==> whole[i] == Cleaned(s[i]);
  }

  lemma RepairedStart(c: string)
    requires c != ""
    ensures var r, shift := RepairStart(c), if IsAlnum(c[0]) then 0 else 2;
            && |r| == (if |c| + shift > 63 && shift == 2 then 63 else |c| + shift)
            && (shift == 2 ==> r[0] == 'c' && r[1] == '-')
            && forall i :: shift <= i < |r| ==> r[i] == c[i - shift]
  {
    assert ("c-" + c)[0] == 'c' && ("c-" + c)[1] == '-';
    assert forall i :: 2 <= i < |c| + 2 ==> ("c-" + c)[i] == c[i - 2];
  }

  lemma StartOf(s: string)
    requires s != ""
    ensures CleanContainerName(s) != ""
    ensures var r, shift := RepairStart(CleanContainerName(s)), if IsAlnum(Cleaned(s[0])) then 0 else 2;
            && |r| == (if |s| + shift > 63 then 63 else |s| + shift)
            && (shift == 2 ==> r[0] == 'c' && r[1] == '-')
            && forall i :: shift <= i < |r| ==> r[i] == Cleaned(s[i - shift])
  {
    hide CleanContainerName, RepairStart, Cleaned;
    CleanedName(s);
    RepairedStart(CleanContainerName(s));
  }

  lemma RepairedEnd(r: string)
    requires r != ""
    ensures var n, last := RepairEnd(r), r[|r| - 1];
            && |n| == |r| && n[..|n| - 1] == r[..|n| - 1]
            && n[|n| - 1] == if IsAlnum(last) then last else 'c'
  {
  }

  /** Character by character: each is cleaned, "c-" is put before a start that is not alphanumeric,
      what lies beyond 63 characters is cut, and an end that is not alphanumeric becomes a c. */
  lemma ContainerNameCharacters(s: string)
    requires s != ""
    ensures DeriveContainerName("") == "container"
    ensures var n, shift := DeriveContainerName(s), if IsAlnum(Cleaned(s[0])) then 0 else 2;
            && |n| == (if |s| + shift > 63 then 63 else |s| + shift)
            && (shift == 2 ==> n[0] == 'c' && n[1] == '-')
            && (forall i :: shift <= i < |n| - 1 ==> n[i] == Cleaned(s[i - shift]))
            && n[|n| - 1] == if IsAlnum(Cleaned(s[|n| - 1 - shift])) then Cleaned(s[|n| - 1 - shift]) else 'c'
  {
    assert CleanContainerName("") == "";
    hide CleanContainerName, RepairStart, RepairEnd, Cleaned;
    StartOf(s);
    var r := RepairStart(CleanContainerName(s));
    RepairedEnd(r);
    var n := DeriveContainerName(s);
    assert n == RepairEnd(r);
    assert forall i :: 0 <= i < |n| - 1 ==> n[i] == n[..|n| - 1][i] == r[..|n| - 1][i] == r[i];
  }

  lemma ContainerNameIdempotent(s: string)
    ensures DeriveContainerName(DeriveContainerName(s)) == DeriveContainerName(s)
  {
    ContainerNameShape(s);
    var n := DeriveContainerName(s);
    assert ReplaceAll(n, ' ', '-') == n;
    assert ToLower(n) == n;
    assert ReplaceAll(n, '_', '-') == n;
  }

  // ----- service account names -----

  /** Create is unset, or set; the name is empty when none is configured. */
  datatype ServiceAccount = ServiceAccount(create: Option<bool>, name: string)

  /** The empty string selects the namespace's default account. */
  function DeriveServiceAccountName(instance: string, config: Option<ServiceAccount>): string {
    if config.None? || config.value.create != Some(true) then ""
    else if config.value.name != "" then ToLower(config.value.name)
    else DeriveResourceName(instance) + "-sa"
  }

  /** Whether BuildObjects emits a ServiceAccount object: here an unset flag counts as true. */
  predicate BuildsServiceAccount(config: Option<ServiceAccount>) {
    config.Some? && config.value.create != Some(false)
  }

  /** The two defaults of the create flag disagree: an emitted account is nameless exactly
      when the flag is unset. */
  lemma NamelessServiceAccount(instance: string, config: Option<ServiceAccount>)
    requires BuildsServiceAccount(config)
    ensures DeriveServiceAccountName(instance, config) == "" <==> config.value.create.None?
  {
    assert config.value.create.Some? ==> config.value.create.value;
    assert |DeriveResourceName(instance) + "-sa"| > 0;
    assert config.value.name != "" ==> |ToLower(config.value.name)| > 0;
  }
}
