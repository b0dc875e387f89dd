/** The names of rooms: `sanitize` of cmd/server/main.go, on the `room` parameter of a connection's URL. */
module Rooms {

  // ---------- the function ----------

  /** unicode.IsSpace */
  predicate IsSpace(c: char) {
    var n := c as int;
    9 <= n <= 13 || n in {0x20, 0x85, 0xA0, 0x1680, 0x2028, 0x2029, 0x202F, 0x205F, 0x3000} || 0x2000 <= n <= 0x200A
  }

  /** unicode.ToLower, as far as it matters. */
  ghost predicate IsLower(lower: char -> char) {
    forall c: char ::
      && ('A' <= c <= 'Z' ==> lower(c) as int == c as int + 32)
      && (!('A' <= c <= 'Z') && c as int < 128 ==> lower(c) == c)
  }

  function Lowered(lower: char -> char, s: string): (r: string)
    ensures |r| == |s|
  {
    seq(|s|, i requires 0 <= i < |s| => lower(s[i]))
  }

  function TrimLeft(s: string): string {
    if s != "" && IsSpace(s[0]) then TrimLeft(s[1..]) else s
  }

  function TrimRight(s: string): string {
    if s != "" && IsSpace(s[|s| - 1]) then TrimRight(s[..|s| - 1]) else s
  }

  /** strings.TrimSpace */
  function Trimmed(s: string): string {
    TrimRight(TrimLeft(s))
  }

  predicate IsNameChar(c: char) {
    'a' <= c <= 'z' || '0' <= c <= '9' || c == '-' || c == '_'
  }

  predicate IsName(s: string) {
    0 < |s| <= 32 && forall i | 0 <= i < |s| :: IsNameChar(s[i])
  }

  function Sanitized(lower: char -> char, room: string): string {
    if room == "" then "general"
    else
      var trimmed := Trimmed(Lowered(lower, room));
      if IsName(trimmed) then trimmed else "general"
  }

  // ---------- what it does ----------

  predicate AllSpace(s: string) {
    forall i | 0 <= i < |s| :: IsSpace(s[i])
  }

  lemma {:induction false} TrimLeftIs(a: string, s: string)
    requires AllSpace(a) && s != "" && !IsSpace(s[0])
    ensures TrimLeft(a + s) == s
  {
    if a == "" {
      assert a + s == s;
    } else {
      assert (a + s)[1..] == a[1..] + s;
      TrimLeftIs(a[1..], s);
    }
  }

  lemma {:induction false} TrimRightIs(s: string, b: string)
    requires AllSpace(b) && s != "" && !IsSpace(s[|s| - 1])
    ensures TrimRight(s + b) == s
  {
    if b == "" {
      assert s + b == s;
    } else {
      assert (s + b)[..|s + b| - 1] == s + b[..|b| - 1];
      TrimRightIs(s, b[..|b| - 1]);
    }
  }

  lemma {:induction false} TrimLeftLeaves(s: string) returns (a: string)
    ensures s == a + TrimLeft(s) && AllSpace(a)
  {
    a := "";
    if s != "" && IsSpace(s[0]) {
      a := TrimLeftLeaves(s[1..]);
      a := [s[0]] + a;
    }
  }

  lemma {:induction false} TrimRightLeaves(s: string) returns (b: string)
    ensures s == TrimRight(s) + b && AllSpace(b)
  {
    b := "";
    if s != "" && IsSpace(s[|s| - 1]) {
      b := TrimRightLeaves(s[..|s| - 1]);
      b := b + [s[|s| - 1]];
    }
  }

  /** `room` is the name in some mixture of cases, with white space around it. */
  ghost predicate Spells(lower: char -> char, room: string, name: string) {
    exists a, b :: AllSpace(a) && AllSpace(b) && Lowered(lower, room) == a + name + b
  }

  lemma SpelledIsSanitized(lower: char -> char, room: string, name: string)
    requires IsName(name) && Spells(lower, room, name)
    ensures Sanitized(lower, room) == name
  {
    var a, b :| AllSpace(a) && AllSpace(b) && Lowered(lower, room) == a + name + b;
    assert IsNameChar(name[0]) && IsNameChar(name[|name| - 1]);
    assert a + name + b == a + (name + b) && (name + b)[0] == name[0];
    TrimLeftIs(a, name + b);
    TrimRightIs(name, b);
  }

  lemma TrimmedIsSpelled(lower: char -> char, room: string)
    ensures Spells(lower, room, Trimmed(Lowered(lower, room)))
  {
    var lowered := Lowered(lower, room);
    var a := TrimLeftLeaves(lowered);
    var b := TrimRightLeaves(TrimLeft(lowered));
    assert lowered == a + (Trimmed(lowered) + b) == a + Trimmed(lowered) + b;
  }

  /** The user gets the room whose name was spelled, and else the default one; always one with a proper name. */
  lemma SanitizedIff(lower: char -> char, room: string, name: string)
    ensures IsName(Sanitized(lower, room))
    ensures Sanitized(lower, room) == name
       <==> if name == "general" then
              forall other | IsName(other) && Spells(lower, room, other) :: other == "general"
            else IsName(name) && Spells(lower, room, name)
  {
    TrimmedIsSpelled(lower, room);
    forall other | IsName(other) && Spells(lower, room, other) ensures Sanitized(lower, room) == other {
      SpelledIsSanitized(lower, room, other);
    }
    if room == "" {
      NothingIsSpelled(lower);
    }
  }

  lemma NothingIsSpelled(lower: char -> char)
    ensures forall other | Spells(lower, "", other) :: other == ""
  {
  }

  /** What stays as it is: 1 to 32 letters, digits, hyphens and underscores. So sanitizing again changes nothing. */
  lemma NamesStay(lower: char -> char, name: string)
    requires IsLower(lower)
    ensures Sanitized(lower, name) == name <==>
              0 < |name| <= 32 && forall i | 0 <= i < |name| ::
                'a' <= name[i] <= 'z' || '0' <= name[i] <= '9' || name[i] == '-' || name[i] == '_'
    ensures Sanitized(lower, Sanitized(lower, name)) == Sanitized(lower, name)
  {
    NameStays(lower, Sanitized(lower, name));
    if IsName(name) {
      NameStays(lower, name);
    }
  }

  lemma NameStays(lower: char -> char, name: string)
    requires IsLower(lower) && IsName(name)
    ensures Sanitized(lower, name) == name
  {
    assert Lowered(lower, name) == name;
    assert Spells(lower, name, name) by {
      assert AllSpace("") && Lowered(lower, name) == "" + name + "";
    }
    SpelledIsSanitized(lower, name, name);
  }

  /** The channel on which the servers signal each other passes for a room. */
  lemma SignalsAreARoom(lower: char -> char)
    requires IsLower(lower)
    ensures Sanitized(lower, "global_signals") == "global_signals"
  {
    NamesStay(lower, "global_signals");
  }
}
