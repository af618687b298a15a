/** The `Avatar` component: an image when a source is given, else the name's initials. */
module Avatar {
  import opened Wrappers
  import opened Types
  import JsArray
  import JsString

  /** `part => part[0]` as `join` writes it: an empty part gives nothing. */
  function FirstChar(part: string): (r: string)
    ensures part == [] ==> r == []
    ensures part != [] ==> r == [part[0]]
  {
    if part == [] then [] else [part[0]]
  }

  /**
   * `getInitials(name)`: the first character of each space-separated part,
   * joined, upper-cased, and cut to its first two characters.
   */
  function GetInitials(name: string): (r: string)
    ensures |r| <= 2
  {
    var joined := JsString.Join(JsArray.Map(JsString.Split(name, ' '), FirstChar), "");
    JsString.Substring(JsString.ToUpperCase(joined), 0, 2)
  }

  /**
   * The characters that begin a word of `s`: not a space, and either first
   * (when `atStart`) or right after a space.
   */
  function WordStarts(s: string, atStart: bool): (r: string)
    ensures ' ' !in r
  {
    if s == [] then []
    else if s[0] == ' ' then WordStarts(s[1..], true)
    else (if atStart then [s[0]] else []) + WordStarts(s[1..], false)
  }

  /** With the empty separator, joining is plain concatenation. */
  lemma JoinEmptySeparator(ps: seq<string>)
    requires ps != []
    ensures JsString.Join(ps, "") == ps[0] + JsString.Join(ps[1..], "")
  {
  }

  /**
   * The first characters of the parts of a split on spaces, joined, are the
   * word starts of the string; those of all but the first part are the word
   * starts that follow a space.
   */
  lemma {:induction false} SplitFirstChars(s: string)
    ensures JsString.Join(JsArray.Map(JsString.Split(s, ' '), FirstChar), "") == WordStarts(s, true)
    ensures JsString.Join(JsArray.Map(JsString.Split(s, ' ')[1..], FirstChar), "") == WordStarts(s, false)
  {
    if s != [] {
      var parts := JsString.Split(s, ' ');
      var rest := JsString.Split(s[1..], ' ');
      SplitFirstChars(s[1..]);
      var mapped := JsArray.Map(parts, FirstChar);
      assert mapped[1..] == JsArray.Map(parts[1..], FirstChar);
      JoinEmptySeparator(mapped);
      if s[0] == ' ' {
        assert parts[1..] == rest;
        assert mapped[0] == [];
      } else {
        assert parts[1..] == rest[1..];
        assert mapped[0] == [s[0]];
      }
    }
  }

  /**
   * The initials are the first two word starts of the name, upper-cased:
   * upper-casing before or after the cut gives the same string.
   */
  lemma InitialsAreWordStarts(name: string)
    ensures var w := WordStarts(name, true);
      GetInitials(name) == JsString.ToUpperCase(if |w| <= 2 then w else w[..2])
  {
    SplitFirstChars(name);
  }

  /** A word without spaces at the front contributes at most its first character. */
  lemma {:induction false} WordStartsOfWord(a: string, t: string, atStart: bool)
    requires a != [] && ' ' !in a
    ensures WordStarts(a + t, atStart) == (if atStart then [a[0]] else []) + WordStarts(t, false)
  {
    assert (a + t)[0] == a[0] && (a + t)[1..] == a[1..] + t;
    if |a| > 1 {
      WordStartsOfWord(a[1..], t, false);
    } else {
      assert a[1..] + t == t;
    }
  }

  /** A first and a last name give the upper-cased first letter of each. */
  lemma TwoWordInitials(first: string, last: string)
    requires first != [] && ' ' !in first
    requires last != [] && ' ' !in last
    ensures GetInitials(first + " " + last) == JsString.ToUpperCase([first[0], last[0]])
  {
    var name := first + " " + last;
    assert name == first + (" " + last);
    WordStartsOfWord(first, " " + last, true);
    assert (" " + last)[1..] == last;
    assert WordStarts(" " + last, false) == WordStarts(last, true);
    WordStartsOfWord(last, [], true);
    assert last + [] == last;
    assert WordStarts(last, true) == [last[0]];
    assert WordStarts(name, true) == [first[0], last[0]];
    InitialsAreWordStarts(name);
  }

  /** What the avatar's circle shows. */
  datatype AvatarContent = Photo(src: string) | Initials(text: string)

  /** `src ? <img …> : <span>{getInitials(alt)}</span>` */
  function Content(src: Option<string>, alt: string): (r: AvatarContent)
    ensures r.Initials? <==> !Truthy(src)
    ensures r.Initials? ==> r.text == GetInitials(alt)
    ensures r.Photo? ==> src == Some(r.src)
  {
    if Truthy(src) then Photo(src.value) else Initials(GetInitials(alt))
  }
}
