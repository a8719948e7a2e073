// The strings behind the identifiers. The provider numbers its resources and
// renders the numbers as "srv-%06d"; the sagas derive resource names from the
// lab's UUID. Both renderings are injective, so the rest of the model keeps
// the numbers and the structured names.

module Rendering {
  import opened Types

  function Digit(d: nat): char
    requires d < 10
  {
    ('0' as int + d) as char
  }

  function Decimal(n: nat): (s: string)
    ensures |s| >= 1
  {
    if n < 10 then [Digit(n)] else Decimal(n / 10) + [Digit(n % 10)]
  }

  function PadSix(s: string): string
    decreases 6 - |s|
  {
    if |s| >= 6 then s else PadSix("0" + s)
  }

  function ResourceId(prefix: string, n: nat): string {
    prefix + "-" + PadSix(Decimal(n))
  }

  // Reads a decimal numeral back, ignoring characters that are not digits.
  function Value(s: string): int {
    if s == "" then 0
    else 10 * Value(s[..|s| - 1]) + (s[|s| - 1] as int - '0' as int)
  }

  lemma {:induction false} ValueOfDecimal(n: nat)
    ensures Value(Decimal(n)) == n
  {
    if n >= 10 {
      ValueOfDecimal(n / 10);
      assert Decimal(n)[..|Decimal(n)| - 1] == Decimal(n / 10);
    } else {
      assert [Digit(n)][..0] == "";
    }
  }

  lemma {:induction false} LeadingZero(s: string)
    ensures Value("0" + s) == Value(s)
  {
    if s == "" {
      assert ("0" + s)[..0] == "";
    } else {
      LeadingZero(s[..|s| - 1]);
      assert ("0" + s)[..|s|] == "0" + s[..|s| - 1];
    }
  }

  lemma {:induction false} PaddingKeepsValue(s: string)
    ensures Value(PadSix(s)) == Value(s)
    decreases 6 - |s|
  {
    if |s| < 6 {
      PaddingKeepsValue("0" + s);
      LeadingZero(s);
    }
  }

  // Resource ids never collide, also past the sixth digit.
  lemma ResourceIdsAreDistinct(prefix: string, m: nat, n: nat)
    requires ResourceId(prefix, m) == ResourceId(prefix, n)
    ensures m == n
  {
    var skip := |prefix + "-"|;
    assert ResourceId(prefix, m)[skip..] == PadSix(Decimal(m));
    assert ResourceId(prefix, n)[skip..] == PadSix(Decimal(n));
    PaddingKeepsValue(Decimal(m));
    PaddingKeepsValue(Decimal(n));
    ValueOfDecimal(m);
    ValueOfDecimal(n);
  }

  const UUID_LENGTH := 36

  // The rendered form of a name, given how lab ids are rendered.
  function Render(name: Name, uuid: LabId -> string): string {
    match name
    case KeyName(lab) => "lab-" + uuid(lab) + "-key"
    case NetName(lab) => "lab-" + uuid(lab) + "-net"
    case VmName(lab, vm) => "lab-" + uuid(lab) + "-" + vm
  }

  ghost predicate IsUuidRendering(uuid: LabId -> string) {
    && (forall l: LabId :: |uuid(l)| == UUID_LENGTH)
    && (forall l: LabId, m: LabId :: uuid(l) == uuid(m) ==> l == m)
  }

  predicate SameKind(a: Name, b: Name) {
    (a.KeyName? && b.KeyName?) || (a.NetName? && b.NetName?) || (a.VmName? && b.VmName?)
  }

  // Names of one kind of resource, of any labs, never collide. (A machine
  // called "key" would share its name with the keypair; kinds are separate
  // name spaces.)
  lemma NamesAreDistinct(a: Name, b: Name, uuid: LabId -> string)
    requires IsUuidRendering(uuid) && SameKind(a, b)
    requires Render(a, uuid) == Render(b, uuid)
    ensures a == b
  {
    var s := Render(a, uuid);
    assert s[4..4 + UUID_LENGTH] == uuid(a.lab);
    assert s[4..4 + UUID_LENGTH] == uuid(b.lab);
    if a.VmName? {
      assert s[4 + UUID_LENGTH + 1..] == a.vm;
      assert s[4 + UUID_LENGTH + 1..] == b.vm;
    }
  }
}
