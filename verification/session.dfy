/** The player's name: the gate on the entry page that keeps a name only when
    something is left of it after trimming, and the read-back on the board
    page. The browser's storage is modelled as a store holding at most one
    name. */
module Session {

  datatype Option<T> = None | Some(value: T)

  /** The whitespace that `trim` removes, restricted to ASCII: space, tab,
      line feed, vertical tab, form feed and carriage return. */
  predicate IsSpace(c: char)
  {
    c == ' ' || c == '\t' || c == '\n' || c == '\U{000B}' || c == '\U{000C}' || c == '\r'
  }

  /** Every character of `s` is whitespace (the empty string included). */
  predicate Blank(s: string)
  {
    forall k | 0 <= k < |s| :: IsSpace(s[k])
  }

  /** `s` without its leading whitespace. */
  function TrimStart(s: string): (r: string)
    ensures |r| <= |s| && r == s[|s| - |r|..]
    ensures Blank(s[..|s| - |r|])
    ensures r == [] || !IsSpace(r[0])
    decreases |s|
  {
    if |s| > 0 && IsSpace(s[0]) then
      var r := TrimStart(s[1..]);
      assert s[..|s| - |r|] == [s[0]] + s[1..][..|s| - 1 - |r|];
      r
    else
      s
  }

  /** `s` without its trailing whitespace. */
  function TrimEnd(s: string): (r: string)
    ensures |r| <= |s| && r == s[..|r|]
    ensures Blank(s[|r|..])
    ensures r == [] || !IsSpace(r[|r| - 1])
    decreases |s|
  {
    if |s| > 0 && IsSpace(s[|s| - 1]) then
      var r := TrimEnd(s[..|s| - 1]);
      assert s[|r|..] == s[..|s| - 1][|r|..] + [s[|s| - 1]];
      r
    else
      s
  }

  /** `trim`: `s` without the whitespace at either end. */
  function Trim(s: string): (r: string)
    ensures |r| <= |s|
    ensures r != [] ==> !IsSpace(r[0]) && !IsSpace(r[|r| - 1])
  {
    var t := TrimStart(s);
    var r := TrimEnd(t);
    assert r != [] ==> r[0] == t[0];
    r
  }

  /** What `trim` keeps is the part of `s` between two whitespace-only stretches. */
  lemma TrimIsInfix(s: string)
    ensures exists a | 0 <= a <= |s| - |Trim(s)| ::
              && s[a..a + |Trim(s)|] == Trim(s)
              && Blank(s[..a])
              && Blank(s[a + |Trim(s)|..])
  {
    var t := TrimStart(s);
    var r := TrimEnd(t);
    var a := |s| - |t|;
    assert s[a..a + |r|] == r;
    assert s[a + |r|..] == t[|r|..];
  }

  /** Trimming leaves nothing exactly when the input is all whitespace. */
  lemma TrimEmptyIffBlank(s: string)
    ensures Trim(s) == [] <==> Blank(s)
  {
    var t := TrimStart(s);
    var r := TrimEnd(t);
    var a := |s| - |t|;
    if r == [] {
      assert t[|r|..] == t;
      assert s == s[..a] + t;
    } else {
      assert s[a] == t[0] == r[0];
    }
  }

  /** Trimming twice trims nothing more. */
  lemma TrimIdempotent(s: string)
    ensures Trim(Trim(s)) == Trim(s)
  {
    var r := Trim(s);
    if r != [] {
      assert TrimStart(r) == r;
      assert TrimEnd(r) == r;
    }
  }

  /** What startGame leaves behind: the store, and whether it moved on to the
      board page (otherwise it asked for a name). */
  datatype Start = Start(store: Option<string>, proceeded: bool)

  /** startGame: the trimmed name is kept, and the game page opened, only
      when the input holds something besides whitespace; otherwise the
      store is left as it was. */
  function StartGame(store: Option<string>, input: string): (r: Start)
    ensures r.proceeded <==> !Blank(input)
    ensures r.proceeded ==> r.store == Some(Trim(input))
    ensures !r.proceeded ==> r.store == store
  {
    TrimEmptyIffBlank(input);
    var name := Trim(input);
    if name != [] then Start(Some(name), true) else Start(store, false)
  }

  /** initGamePage: the name to greet, or `None` when the board page has to
      send the player back to the entry page (nothing stored, or an empty
      string stored). */
  function GreetedName(store: Option<string>): (r: Option<string>)
    ensures r.None? <==> store.None? || store.value == []
    ensures r.Some? ==> r == store
  {
    match store
    case Some(name) => if name != [] then Some(name) else None
    case None => None
  }

  /** A name accepted on the entry page is the one greeted on the board page:
      the trimmed input, with no whitespace at either end. */
  lemma StartThenGreet(store: Option<string>, input: string)
    requires !Blank(input)
    ensures GreetedName(StartGame(store, input).store) == Some(Trim(input))
    ensures var name := Trim(input); !IsSpace(name[0]) && !IsSpace(name[|name| - 1])
  {
    TrimEmptyIffBlank(input);
  }

  /** A blank input changes neither the store nor what the board page greets. */
  lemma BlankInputKeepsGreeting(store: Option<string>, input: string)
    requires Blank(input)
    ensures GreetedName(StartGame(store, input).store) == GreetedName(store)
  {
  }
}
