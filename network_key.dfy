/**
 * The network-key option initOZW passes to OpenZWave: a key of 32 hex digits
 * rewritten as "0x01, 0x02, ..., 0x10", one "0x" group per byte.
 */
module NetworkKey {

  /** ", 0x" before every pair of digits of t. */
  function Groups(t: string): (g: string)
    requires |t| % 2 == 0
    ensures |g| == 3 * |t|
    decreases |t|
  {
    if t == "" then "" else ", 0x" + t[..2] + Groups(t[2..])
  }

  /** The option string for a key of an even number (at least two) of hex digits. */
  function Format(k: string): (r: string)
    requires |k| >= 2 && |k| % 2 == 0
  {
    "0x" + k[..2] + Groups(k[2..])
  }

  /** Reads the digit pairs back out of a run of groups. */
  function ParseGroups(g: string): string
    decreases |g|
  {
    if |g| < 6 then "" else g[4..6] + ParseGroups(g[6..])
  }

  /** Reads the hex digits back out of an option string. */
  function Parse(r: string): string {
    if |r| < 4 then "" else r[2..4] + ParseGroups(r[4..])
  }

  lemma {:induction false} ParseGroupsOfGroups(t: string)
    requires |t| % 2 == 0
    ensures ParseGroups(Groups(t)) == t
    decreases |t|
  {
    if t != "" {
      var g := Groups(t);
      assert g == ", 0x" + t[..2] + Groups(t[2..]);
      assert g[4..6] == t[..2];
      assert g[6..] == Groups(t[2..]);
      ParseGroupsOfGroups(t[2..]);
      assert t == t[..2] + t[2..];
    }
  }

  /** The option string determines the key: parsing it gives the key back. */
  lemma ParseFormat(k: string)
    requires |k| >= 2 && |k| % 2 == 0
    ensures |Format(k)| == 3 * |k| - 2
    ensures Parse(Format(k)) == k
  {
    var r := Format(k);
    assert r[2..4] == k[..2];
    assert r[4..] == Groups(k[2..]);
    ParseGroupsOfGroups(k[2..]);
    assert k == k[..2] + k[2..];
  }

  /** The string after the loop has reached i: the pairs below 2 * i + 2 untouched, the rest grouped. */
  function Partial(key: string, i: int): string
    requires |key| == 32 && 0 <= i <= 15
  {
    key[..2 * i + 2] + Groups(key[2 * i + 2..])
  }

  /** Before the loop nothing is grouped yet. */
  lemma PartialStart(key: string)
    requires |key| == 32
    ensures Partial(key, 15) == key
  {
    assert key[32..] == "";
  }

  /** One pass of the loop: inserting ", 0x" at 2 * i turns the pair at 2 * i into a group. */
  lemma InsertGroup(key: string, i: int, s: string)
    requires |key| == 32 && 1 <= i <= 15 && s == Partial(key, i)
    ensures |s| >= 2 * i
    ensures s[..2 * i] + ", 0x" + s[2 * i..] == Partial(key, i - 1)
  {
    var rest := key[2 * i..];
    assert rest[..2] == key[2 * i..2 * i + 2];
    assert rest[2..] == key[2 * i + 2..];
    assert Groups(rest) == ", 0x" + key[2 * i..2 * i + 2] + Groups(key[2 * i + 2..]);
    assert s[..2 * i] == key[..2 * i];
    assert s[2 * i..] == key[2 * i..2 * i + 2] + Groups(key[2 * i + 2..]);
  }

  /**
   * The loop of initOZW: for i from 15 down to 1 insert ", 0x" at position
   * 2 * i, then prepend "0x".
   */
  method FormatNetworkKey(key: string) returns (option: string)
    requires |key| == 32
    ensures option == Format(key)
    ensures |option| == 94 && Parse(option) == key
  {
    var s := key;
    var i := 15;
    PartialStart(key);
    while i > 0
      invariant 0 <= i <= 15 && s == Partial(key, i)
    {
      InsertGroup(key, i, s);
      s := s[..2 * i] + ", 0x" + s[2 * i..];
      i := i - 1;
    }
    option := "0x" + s;
    ParseFormat(key);
  }
}
