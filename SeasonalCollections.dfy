// The seasonal collection links: a collection's name turned into the slug
// of its `/collections/<slug>` address.

module SeasonalCollections {

  /** The whitespace characters `\s` matches among ASCII: space, tab, newline, vertical tab, form feed, return. */
  predicate IsSpace(c: char) {
    c == ' ' || c == '\t' || c == '\n' || c == '\U{B}' || c == '\U{C}' || c == '\r'
  }

  /** `toLowerCase` on ASCII letters; every other character is kept. */
  function LowerChar(c: char): (r: char)
    ensures IsSpace(r) <==> IsSpace(c)
    ensures (r == '-') <==> (c == '-')
  {
    if 'A' <= c <= 'Z' then (c as int - 'A' as int + 'a' as int) as char else c
  }

  predicate IsLower(c: char) {
    !('A' <= c <= 'Z')
  }

  function Lower(s: string): (r: string)
    ensures |r| == |s|
    ensures forall i :: 0 <= i < |s| ==> r[i] == LowerChar(s[i]) && IsLower(r[i])
  {
    seq(|s|, i requires 0 <= i < |s| => LowerChar(s[i]))
  }

  /** The rest of `s` after its leading whitespace. */
  function DropSpaces(s: string): (r: string)
    ensures |r| <= |s| && (r == [] || !IsSpace(r[0]))
    ensures r == s[|s| - |r|..]
  {
    if s != [] && IsSpace(s[0]) then DropSpaces(s[1..]) else s
  }

  /** `replace(/\s+/g, "-")`: every maximal run of whitespace becomes a single dash. */
  function Dashes(s: string): (r: string)
    ensures |r| <= |s|
    ensures forall i :: 0 <= i < |r| ==> !IsSpace(r[i])
  {
    if s == [] then []
    else
      var head := if IsSpace(s[0]) then '-' else s[0];
      var rest := if IsSpace(s[0]) then Dashes(DropSpaces(s[1..])) else Dashes(s[1..]);
      assert forall i :: 0 < i <= |rest| ==> ([head] + rest)[i] == rest[i - 1];
      [head] + rest
  }

  /** The slug of a collection name: lowercase it, then collapse the whitespace runs into dashes. */
  function Slug(name: string): string {
    Dashes(Lower(name))
  }

  /** The link of a collection. */
  function Href(name: string): (r: string)
    ensures |r| == 13 + |Slug(name)|
    ensures r[..13] == "/collections/" && r[13..] == Slug(name)
  {
    "/collections/" + Slug(name)
  }

  /** A slug has no whitespace, every letter in it is lowercase, and it is no longer than the name. */
  lemma {:induction false} SlugShape(name: string)
    ensures |Slug(name)| <= |name|
    ensures forall i :: 0 <= i < |Slug(name)| ==> !IsSpace(Slug(name)[i]) && IsLower(Slug(name)[i])
  {
    DashesKeepsLower(Lower(name));
  }

  lemma {:induction false} DashesKeepsLower(s: string)
    requires forall i :: 0 <= i < |s| ==> IsLower(s[i])
    ensures forall i :: 0 <= i < |Dashes(s)| ==> IsLower(Dashes(s)[i])
    decreases |s|
  {
    if s != [] {
      if IsSpace(s[0]) {
        var t := DropSpaces(s[1..]);
        assert forall i :: 0 <= i < |t| ==> t[i] == s[1 + |s[1..]| - |t| + i];
        DashesKeepsLower(t);
      } else {
        DashesKeepsLower(s[1..]);
      }
    }
  }

  /** The characters that are neither whitespace nor a dash, in order. */
  function Letters(s: string): string {
    if s == [] then []
    else if IsSpace(s[0]) || s[0] == '-' then Letters(s[1..])
    else [s[0]] + Letters(s[1..])
  }

  lemma {:induction false} LettersDropSpaces(s: string)
    ensures Letters(DropSpaces(s)) == Letters(s)
    decreases |s|
  {
    if s != [] && IsSpace(s[0]) {
      LettersDropSpaces(s[1..]);
    }
  }

  lemma {:induction false} LettersDashes(s: string)
    ensures Letters(Dashes(s)) == Letters(s)
    decreases |s|
  {
    if s != [] {
      if IsSpace(s[0]) {
        var t := DropSpaces(s[1..]);
        LettersDashes(t);
        LettersDropSpaces(s[1..]);
        assert Dashes(s) == "-" + Dashes(t);
        assert Letters("-" + Dashes(t)) == Letters(Dashes(t)) by {
          assert ("-" + Dashes(t))[1..] == Dashes(t);
        }
      } else {
        LettersDashes(s[1..]);
        assert ([s[0]] + Dashes(s[1..]))[1..] == Dashes(s[1..]);
      }
    }
  }

  lemma {:induction false} LettersLower(s: string)
    ensures Letters(Lower(s)) == Lower(Letters(s))
    decreases |s|
  {
    if s != [] {
      LettersLower(s[1..]);
      assert Lower(s)[1..] == Lower(s[1..]);
      if !(IsSpace(s[0]) || s[0] == '-') {
        assert ([s[0]] + Letters(s[1..]))[1..] == Letters(s[1..]);
      }
    }
  }

  /** Apart from whitespace and dashes, the slug holds the name's characters in order, lowercased. */
  lemma SlugKeepsCharacters(name: string)
    ensures Letters(Slug(name)) == Lower(Letters(name))
  {
    LettersDashes(Lower(name));
    LettersLower(name);
  }

  /** A string without whitespace passes through the dash step unchanged. */
  lemma {:induction false} DashesNoSpace(s: string)
    requires forall i :: 0 <= i < |s| ==> !IsSpace(s[i])
    ensures Dashes(s) == s
    decreases |s|
  {
    if s != [] {
      DashesNoSpace(s[1..]);
    }
  }

  /** Lowercasing a string that is already lowercase changes nothing. */
  lemma {:induction false} LowerOfLower(s: string)
    requires forall i :: 0 <= i < |s| ==> IsLower(s[i])
    ensures Lower(s) == s
    decreases |s|
  {
    if s != [] {
      LowerOfLower(s[1..]);
    }
  }

  /** Slugging a slug gives it back. */
  lemma SlugIdempotent(name: string)
    ensures Slug(Slug(name)) == Slug(name)
  {
    SlugShape(name);
    LowerOfLower(Slug(name));
    DashesNoSpace(Slug(name));
  }

  /** A run of whitespace after a word becomes exactly one dash, whatever follows the run. */
  lemma {:induction false} DashesRun(word: string, run: string, b: string)
    requires forall i :: 0 <= i < |word| ==> !IsSpace(word[i])
    requires run != [] && forall i :: 0 <= i < |run| ==> IsSpace(run[i])
    requires b != [] ==> !IsSpace(b[0])
    ensures Dashes(word + run + b) == word + "-" + Dashes(b)
    decreases |word|
  {
    if word == [] {
      assert word + run + b == run + b;
      assert (run + b)[1..] == run[1..] + b;
      DropRun(run[1..], b);
    } else {
      assert (word + run + b)[0] == word[0];
      assert (word + run + b)[1..] == word[1..] + run + b;
      DashesRun(word[1..], run, b);
      assert word + "-" + Dashes(b) == [word[0]] + (word[1..] + "-" + Dashes(b));
    }
  }

  lemma {:induction false} DropRun(run: string, b: string)
    requires forall i :: 0 <= i < |run| ==> IsSpace(run[i])
    requires b != [] ==> !IsSpace(b[0])
    ensures DropSpaces(run + b) == b
    decreases |run|
  {
    if run == [] {
      assert run + b == b;
    } else {
      assert (run + b)[1..] == run[1..] + b;
      DropRun(run[1..], b);
    }
  }

  /** The names of the four seasonal collections, in display order. */
  const CollectionNames: seq<string> := ["Summer Collection", "Winter Essentials", "Autumn Styles", "Spring Fashion"]

  lemma {:induction false} LowerConcat(a: string, b: string)
    ensures Lower(a + b) == Lower(a) + Lower(b)
  {
    assert forall i :: 0 <= i < |a + b| ==> Lower(a + b)[i] == (Lower(a) + Lower(b))[i];
  }

  /** Two words joined by one space slug to the lowercased words joined by a dash. */
  lemma SlugTwoWords(a: string, b: string)
    requires forall i :: 0 <= i < |a| ==> !IsSpace(a[i])
    requires forall i :: 0 <= i < |b| ==> !IsSpace(b[i])
    ensures Slug(a + " " + b) == Lower(a) + "-" + Lower(b)
  {
    LowerConcat(a + " ", b);
    LowerConcat(a, " ");
    assert Lower(" ") == " ";
    DashesRun(Lower(a), " ", Lower(b));
    DashesNoSpace(Lower(b));
  }

  lemma LowerFromChars(s: string, t: string)
    requires |s| == |t| && forall i :: 0 <= i < |s| ==> LowerChar(s[i]) == t[i]
    ensures Lower(s) == t
  {
  }

  /** The slugs of the four collections, in display order. */
  const CollectionSlugs: seq<string> := ["summer-collection", "winter-essentials", "autumn-styles", "spring-fashion"]

  /** A collection named by two words links to its two lowercased words joined by a dash. */
  lemma {:induction false} NamedLink(i: nat, a: string, b: string)
    requires i < |CollectionNames| && CollectionNames[i] == a + " " + b
    requires forall k :: 0 <= k < |a| ==> !IsSpace(a[k])
    requires forall k :: 0 <= k < |b| ==> !IsSpace(b[k])
    requires CollectionSlugs[i] == Lower(a) + "-" + Lower(b)
    ensures Slug(CollectionNames[i]) == CollectionSlugs[i]
  {
    SlugTwoWords(a, b);
  }

  lemma SummerLink(i: nat)
    requires i == 0
    ensures Slug(CollectionNames[i]) == CollectionSlugs[i]
  {
    LowerFromChars("Summer", "summer");
    LowerFromChars("Collection", "collection");
    NamedLink(i, "Summer", "Collection");
  }

  lemma WinterLink(i: nat)
    requires i == 1
    ensures Slug(CollectionNames[i]) == CollectionSlugs[i]
  {
    LowerFromChars("Winter", "winter");
    LowerFromChars("Essentials", "essentials");
    NamedLink(i, "Winter", "Essentials");
  }

  lemma AutumnLink(i: nat)
    requires i == 2
    ensures Slug(CollectionNames[i]) == CollectionSlugs[i]
  {
    LowerFromChars("Autumn", "autumn");
    LowerFromChars("Styles", "styles");
    NamedLink(i, "Autumn", "Styles");
  }

  lemma SpringLink(i: nat)
    requires i == 3
    ensures Slug(CollectionNames[i]) == CollectionSlugs[i]
  {
    LowerFromChars("Spring", "spring");
    LowerFromChars("Fashion", "fashion");
    NamedLink(i, "Spring", "Fashion");
  }

  /** The four links the section renders. */
  lemma CollectionLinks(i: nat)
    requires i < |CollectionNames|
    ensures Slug(CollectionNames[i]) == CollectionSlugs[i]
    ensures Href(CollectionNames[i]) == "/collections/" + CollectionSlugs[i]
  {
    if i == 0 {
      SummerLink(i);
    } else if i == 1 {
      WinterLink(i);
    } else if i == 2 {
      AutumnLink(i);
    } else {
      SpringLink(i);
    }
  }
}
