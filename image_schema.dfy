/**
 * The arguments of the `decs_image` data source and the bounds its schema
 * declares: `name` is required and 1 to 128 bytes long, `pool` is
 * 1 to 64 bytes, and `sep_id`, `tenant_id` and `rgid` are at least 1.
 * Lengths are Go's `len`, the number of bytes of the UTF-8 encoding.
 * The host checks these before it runs the read.
 */
module ImageSchema {
  import opened Wrappers

  const NameMinLength: nat := 1
  const NameMaxLength: nat := 128
  const PoolMinLength: nat := 1
  const PoolMaxLength: nat := 64
  const MinId: int := 1

  /** The data source's arguments as the configuration gives them; None is an argument left out. */
  datatype Config = Config(
    name: Option<string>,
    pool: Option<string>,
    sepId: Option<int>,
    tenantId: Option<int>,
    rgid: Option<int>)

  /** One failed schema check, naming the argument it is about. */
  datatype Violation =
    | MissingRequired(key: string)
    | LengthOutOfRange(key: string, minLength: nat, maxLength: nat)
    | BelowMinimum(key: string, min: int)

  const Keys: set<string> := {"name", "pool", "sep_id", "tenant_id", "rgid"}

  /** Every check the schema declares, one per argument and bound. */
  const Checks: set<Violation> := {
    MissingRequired("name"),
    LengthOutOfRange("name", NameMinLength, NameMaxLength),
    LengthOutOfRange("pool", PoolMinLength, PoolMaxLength),
    BelowMinimum("sep_id", MinId),
    BelowMinimum("tenant_id", MinId),
    BelowMinimum("rgid", MinId)
  }

  /** Bytes of the UTF-8 encoding of one Unicode scalar value. */
  function Utf8CharLength(c: char): (n: nat)
    ensures 1 <= n <= 4
    ensures n == 1 <==> (c as int) < 0x80
  {
    if (c as int) < 0x80 then 1
    else if (c as int) < 0x800 then 2
    else if (c as int) < 0x10000 then 3
    else 4
  }

  /** Go's `len` of a string: the length of its UTF-8 encoding. */
  function Utf8Length(s: string): (n: nat)
    ensures |s| <= n <= 4 * |s|
  {
    if s == [] then 0 else Utf8CharLength(s[0]) + Utf8Length(s[1..])
  }

  /** Every character is ASCII, so it takes one byte. */
  predicate IsAscii(s: string) {
    forall i :: 0 <= i < |s| ==> (s[i] as int) < 0x80
  }

  /** The byte length is at least the character count, and equal to it exactly for ASCII text. */
  lemma {:induction false} Utf8LengthBounds(s: string)
    ensures |s| <= Utf8Length(s) <= 4 * |s|
    ensures Utf8Length(s) == |s| <==> IsAscii(s)
  {
    if s != [] {
      Utf8LengthBounds(s[1..]);
      if IsAscii(s[1..]) && (s[0] as int) < 0x80 {
        assert IsAscii(s) by {
          forall i | 0 <= i < |s| ensures (s[i] as int) < 0x80 {
            if i > 0 { assert s[i] == s[1..][i - 1]; }
          }
        }
      }
      if !IsAscii(s[1..]) {
        var i :| 0 <= i < |s[1..]| && (s[1..][i] as int) >= 0x80;
        assert s[i + 1] == s[1..][i];
      }
    }
  }

  /** `validation.StringLenBetween(min, max)`: Go's `len`, in bytes, lies in [min, max]. */
  predicate StringLenBetween(s: string, min: nat, max: nat)
    ensures StringLenBetween(s, min, max) ==> |s| <= max
    ensures IsAscii(s) ==> (StringLenBetween(s, min, max) <==> min <= |s| <= max)
  {
    Utf8LengthBounds(s);
    min <= Utf8Length(s) <= max
  }

  /**
   * Non-ASCII text is measured in bytes: 65 copies of 'é' (U+00E9) are 65
   * characters but 130 bytes, so as a name they are out of range.
   */
  lemma WideNameRejected()
    ensures var name := seq(65, _ => 'é');
      LengthOutOfRange("name", NameMinLength, NameMaxLength) in Violations(Config(Some(name), None, None, None, None))
  {
    Utf8LengthOfRepeat('é', 65);
  }

  lemma {:induction false} Utf8LengthOfRepeat(c: char, n: nat)
    ensures Utf8Length(seq(n, _ => c)) == n * Utf8CharLength(c)
  {
    if n > 0 {
      var s := seq(n, _ => c);
      assert s[1..] == seq(n - 1, _ => c);
      Utf8LengthOfRepeat(c, n - 1);
    }
  }

  /** `validation.IntAtLeast(min)`. */
  predicate IntAtLeast(v: int, min: int)
    ensures min >= 1 && IntAtLeast(v, min) ==> v != 0
  {
    v >= min
  }

  /** An optional argument is acceptable when it is left out or passes its check. */
  predicate OptionalStringOk(o: Option<string>, min: nat, max: nat) {
    o.Some? ==> StringLenBetween(o.value, min, max)
  }

  predicate OptionalIdOk(o: Option<int>) {
    o.Some? ==> IntAtLeast(o.value, MinId)
  }

  /** Every argument the schema declares meets its requirement. */
  predicate ValidConfig(cfg: Config) {
    && cfg.name.Some?
    && StringLenBetween(cfg.name.value, NameMinLength, NameMaxLength)
    && OptionalStringOk(cfg.pool, PoolMinLength, PoolMaxLength)
    && OptionalIdOk(cfg.sepId)
    && OptionalIdOk(cfg.tenantId)
    && OptionalIdOk(cfg.rgid)
  }

  function StringViolations(key: string, o: Option<string>, required: bool, min: nat, max: nat): set<Violation> {
    match o
    case None => if required then {MissingRequired(key)} else {}
    case Some(s) => if StringLenBetween(s, min, max) then {} else {LengthOutOfRange(key, min, max)}
  }

  function IdViolations(key: string, o: Option<int>): set<Violation> {
    if OptionalIdOk(o) then {} else {BelowMinimum(key, MinId)}
  }

  /** All failed checks of a configuration; the host reports every one of them. */
  function Violations(cfg: Config): (r: set<Violation>)
    ensures r == {} <==> ValidConfig(cfg)
    ensures forall v :: v in r ==> v.key in Keys
    ensures forall v :: v in r ==> v in Checks
    ensures MissingRequired("name") in r <==> cfg.name.None?
    ensures LengthOutOfRange("name", NameMinLength, NameMaxLength) in r
      <==> cfg.name.Some? && !StringLenBetween(cfg.name.value, NameMinLength, NameMaxLength)
    ensures LengthOutOfRange("pool", PoolMinLength, PoolMaxLength) in r
      <==> !OptionalStringOk(cfg.pool, PoolMinLength, PoolMaxLength)
    ensures BelowMinimum("sep_id", MinId) in r <==> !OptionalIdOk(cfg.sepId)
    ensures BelowMinimum("tenant_id", MinId) in r <==> !OptionalIdOk(cfg.tenantId)
    ensures BelowMinimum("rgid", MinId) in r <==> !OptionalIdOk(cfg.rgid)
  {
    StringViolations("name", cfg.name, true, NameMinLength, NameMaxLength)
    + StringViolations("pool", cfg.pool, false, PoolMinLength, PoolMaxLength)
    + IdViolations("sep_id", cfg.sepId)
    + IdViolations("tenant_id", cfg.tenantId)
    + IdViolations("rgid", cfg.rgid)
  }
}
