/** The avatar atom: the picture when a source is given, otherwise the name's
    initials, in one of three sizes. */
module Avatar {
  import opened Common

  datatype Size = Small | Medium | Large

  /** `size = 'md'`: an absent size prop means the medium one. */
  function SizeOrDefault(size: Option<Size>): (s: Size)
    ensures size.None? ==> s == Medium
    ensures size.Some? ==> s == size.value
  {
    if size.Some? then size.value else Medium
  }

  function SizeClasses(s: Size): string
  {
    match s
    case Small => "h-8 w-8 text-xs"
    case Medium => "h-10 w-10 text-sm"
    case Large => "h-12 w-12 text-base"
  }

  /** `s.split(' ')`: the pieces between single spaces, empty ones included, so
      there is always at least one piece. */
  function Split(s: string): (words: seq<string>)
    ensures |words| >= 1
    ensures forall k | 0 <= k < |words| :: ' ' !in words[k]
  {
    if |s| == 0 then [""]
    else if s[0] == ' ' then [""] + Split(s[1..])
    else
      var rest := Split(s[1..]);
      [[s[0]] + rest[0]] + rest[1..]
  }

  /** `words.join(' ')`. */
  function Join(words: seq<string>): string
    requires |words| >= 1
  {
    if |words| == 1 then words[0] else words[0] + " " + Join(words[1..])
  }

  /** Splitting loses nothing: joining the pieces again gives the name back. */
  lemma {:induction false} JoinSplit(s: string)
    ensures Join(Split(s)) == s
  {
    if |s| == 0 {
    } else if s[0] == ' ' {
      JoinSplit(s[1..]);
      var rest := Split(s[1..]);
      assert Split(s) == [""] + rest;
      assert Join([""] + rest) == "" + " " + Join(rest);
      assert s == [' '] + s[1..];
    } else {
      JoinSplit(s[1..]);
      var rest := Split(s[1..]);
      assert Split(s) == [[s[0]] + rest[0]] + rest[1..];
      if |rest| == 1 {
        assert Join(Split(s)) == [s[0]] + rest[0];
      } else {
        assert Join(Split(s)) == [s[0]] + rest[0] + " " + Join(rest[1..]);
        assert Join(rest) == rest[0] + " " + Join(rest[1..]);
      }
      assert s == [s[0]] + s[1..];
    }
  }

  /** `.map((n) => n[0]).join('')`: the first character of every piece; an empty
      piece gives `undefined`, which `join` writes as nothing. */
  function Heads(words: seq<string>): (h: string)
    ensures |h| <= |words|
  {
    if |words| == 0 then []
    else (if |words[0]| > 0 then [words[0][0]] else []) + Heads(words[1..])
  }

  lemma {:induction false} HeadsAppend(a: seq<string>, b: seq<string>)
    ensures Heads(a + b) == Heads(a) + Heads(b)
  {
    if |a| == 0 {
      assert a + b == b;
    } else {
      assert (a + b)[1..] == a[1..] + b;
      HeadsAppend(a[1..], b);
    }
  }

  /** An independent description of the same characters: those that are not a
      space and stand at the start of the name or right after a space. */
  function WordStarts(s: string, afterSpace: bool): string
  {
    if |s| == 0 then []
    else (if s[0] != ' ' && afterSpace then [s[0]] else []) + WordStarts(s[1..], s[0] == ' ')
  }

  lemma {:induction false} HeadsAreWordStarts(s: string)
    ensures Heads(Split(s)) == WordStarts(s, true)
    ensures Heads(Split(s)[1..]) == WordStarts(s, false)
  {
    if |s| == 0 {
    } else if s[0] == ' ' {
      HeadsAreWordStarts(s[1..]);
      var rest := Split(s[1..]);
      assert Split(s) == [""] + rest;
      assert Split(s)[1..] == rest;
      HeadsAppend([""], rest);
    } else {
      HeadsAreWordStarts(s[1..]);
      var rest := Split(s[1..]);
      assert Split(s) == [[s[0]] + rest[0]] + rest[1..];
      assert Split(s)[1..] == rest[1..];
      HeadsAppend([[s[0]] + rest[0]], rest[1..]);
    }
  }

  /** `initials`: the word starts, upper-cased, at most two of them. */
  function Initials(name: string): (initials: string)
    ensures |initials| <= 2
    ensures forall i | 0 <= i < |initials| :: !('a' <= initials[i] <= 'z')
  {
    var all := Upper(Heads(Split(name)));
    if |all| <= 2 then all else all[..2]
  }

  /** What the initials are, without reference to splitting: the upper-cased first
      two word starts of the name. */
  lemma InitialsAreFirstWordStarts(name: string)
    ensures |Initials(name)| <= 2
    ensures var w := WordStarts(name, true);
      Initials(name) == Upper(if |w| <= 2 then w else w[..2])
  {
    HeadsAreWordStarts(name);
    var w := WordStarts(name, true);
    if |w| > 2 {
      assert Upper(w)[..2] == Upper(w[..2]);
    }
  }

  /** A name of two space-separated words shows their two first letters. */
  lemma TwoWordName()
    ensures Initials("ann lee") == "AL"
  {
    InitialsAreFirstWordStarts("ann lee");
    assert WordStarts("lee", false) == "";
    assert WordStarts(" lee", false) == "l";
    assert WordStarts("nn lee", false) == "l";
    assert WordStarts("ann lee", true) == "al";
  }

  datatype Content = Image(src: string, alt: string) | Text(initials: string)

  /** `src ? <img …/> : initials`: a present, non-empty source shows the picture. */
  function AvatarContent(name: string, src: Option<string>): (c: Content)
    ensures c.Image? <==> src.Some? && src.value != ""
    ensures c.Image? ==> c == Image(src.value, name)
    ensures c.Text? ==> c.initials == Initials(name)
  {
    if src.Some? && src.value != "" then Image(src.value, name) else Text(Initials(name))
  }
}
