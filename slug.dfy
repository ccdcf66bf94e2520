/**
  The product-name slug used to derive per-product element identifiers
  (`popup-<slug>`, `quantity-<slug>`): lower-case the name, turn every run of
  whitespace into one dash, then drop every character outside [a-z0-9-].
  Each of the three string transforms is its own function, and the slug is
  their composition.
 */
module Slug {

  /** The characters JavaScript's `\s` class matches (white space and line terminators), by code point. */
  predicate IsSpace(c: char) {
    var n := c as int;
    n == 0x20 || (0x09 <= n <= 0x0D) || n == 0xA0 || n == 0x1680 || (0x2000 <= n <= 0x200A)
    || n == 0x2028 || n == 0x2029 || n == 0x202F || n == 0x205F || n == 0x3000 || n == 0xFEFF
  }

  predicate IsUpper(c: char) {
    'A' <= c <= 'Z'
  }

  /** The characters a slug may keep: `[a-z0-9-]`. */
  predicate IsSlugChar(c: char) {
    ('a' <= c <= 'z') || ('0' <= c <= '9') || c == '-'
  }

  predicate NoSpace(s: string) {
    forall i :: 0 <= i < |s| ==> !IsSpace(s[i])
  }

  predicate NoUpper(s: string) {
    forall i :: 0 <= i < |s| ==> !IsUpper(s[i])
  }

  predicate AllSlugChars(s: string) {
    forall i :: 0 <= i < |s| ==> IsSlugChar(s[i])
  }

  /** A word of letters, digits and dashes: it has a slug of its own length. */
  predicate Plain(w: string) {
    forall i :: 0 <= i < |w| ==> IsUpper(w[i]) || IsSlugChar(w[i])
  }

  /**
    Lower-cases one character. Only the ASCII letters A-Z have a case mapping
    here: the result is never an upper-case letter, a letter becomes a slug
    character, and whitespace and slug characters are left alone.
   */
  function LowerChar(c: char): (r: char)
    ensures !IsUpper(r)
    ensures IsUpper(c) ==> IsSlugChar(r) && r as int == c as int + 32
    ensures !IsUpper(c) ==> r == c
  {
    if IsUpper(c) then (c as int + 32) as char else c
  }

  /** `name.toLowerCase()`, restricted to ASCII letters. */
  function Lower(s: string): (r: string)
    ensures |r| == |s|
  {
    if s == [] then [] else [LowerChar(s[0])] + Lower(s[1..])
  }

  /** The suffix of `s` after its leading whitespace. */
  function SkipSpaces(s: string): (r: string)
    ensures |r| <= |s|
  {
    if s != [] && IsSpace(s[0]) then SkipSpaces(s[1..]) else s
  }

  /** `.replace(/\s+/g, '-')`: each maximal run of whitespace becomes a single dash. */
  function CollapseSpaces(s: string): (r: string)
    ensures |r| <= |s|
    decreases |s|
  {
    if s == [] then []
    else if IsSpace(s[0]) then "-" + CollapseSpaces(SkipSpaces(s[1..]))
    else [s[0]] + CollapseSpaces(s[1..])
  }

  /** `.replace(/[^a-z0-9\-]/g, '')`: keeps the slug characters, in order. */
  function StripDisallowed(s: string): (r: string)
    ensures |r| <= |s|
  {
    if s == [] then []
    else if IsSlugChar(s[0]) then [s[0]] + StripDisallowed(s[1..])
    else StripDisallowed(s[1..])
  }

  /** `slugifyProductName(name)`: only slug characters, so in particular no whitespace. */
  function Slugify(name: string): (r: string)
    ensures |r| <= |name|
    ensures AllSlugChars(r) && NoSpace(r)
  {
    var r := StripDisallowed(CollapseSpaces(Lower(name)));
    StripOnlySlugChars(CollapseSpaces(Lower(name)));
    r
  }

  /** Lower-casing works character by character. */
  lemma {:induction false} LowerAt(s: string, i: nat)
    requires i < |s|
    ensures Lower(s)[i] == LowerChar(s[i])
  {
    if i > 0 {
      LowerAt(s[1..], i - 1);
    }
  }

  /** Lower-casing leaves a string alone exactly when it has no upper-case letter. */
  lemma {:induction false} LowerIdentity(s: string)
    ensures Lower(s) == s <==> NoUpper(s)
  {
    if s != [] {
      LowerIdentity(s[1..]);
      if NoUpper(s) {
        assert NoUpper(s[1..]);
      }
    }
  }

  lemma {:induction false} LowerAppend(a: string, b: string)
    ensures Lower(a + b) == Lower(a) + Lower(b)
  {
    if a == [] {
      assert a + b == b;
    } else {
      var ab := a + b;
      assert ab[0] == a[0] && ab[1..] == a[1..] + b;
      LowerAppend(a[1..], b);
    }
  }

  /** Skipping leading whitespace drops only whitespace, and stops at a non-space. */
  lemma {:induction false} SkipSpacesSpec(s: string)
    ensures var r := SkipSpaces(s);
      r == s[|s| - |r|..] && (r == [] || !IsSpace(r[0]))
      && forall i :: 0 <= i < |s| - |r| ==> IsSpace(s[i])
  {
    if s != [] && IsSpace(s[0]) {
      SkipSpacesSpec(s[1..]);
    }
  }

  /** A string that ends in a non-space keeps that end when its leading whitespace is skipped. */
  lemma {:induction false} SkipKeepsLast(s: string)
    requires s != [] && !IsSpace(s[|s| - 1])
    ensures SkipSpaces(s) != [] && SkipSpaces(s)[|SkipSpaces(s)| - 1] == s[|s| - 1]
  {
    if IsSpace(s[0]) {
      SkipKeepsLast(s[1..]);
    }
  }

  lemma {:induction false} SkipAppend(a: string, b: string)
    requires a != [] && !IsSpace(a[|a| - 1])
    ensures SkipSpaces(a + b) == SkipSpaces(a) + b
  {
    assert (a + b)[0] == a[0] && (a + b)[1..] == a[1..] + b;
    if IsSpace(a[0]) {
      SkipAppend(a[1..], b);
    }
  }

  lemma {:induction false} SkipAllSpaces(run: string, t: string)
    requires AllSpaces(run)
    requires t == [] || !IsSpace(t[0])
    ensures SkipSpaces(run + t) == t
  {
    if run == [] {
      assert run + t == t;
    } else {
      assert (run + t)[0] == run[0] && (run + t)[1..] == run[1..] + t;
      SkipAllSpaces(run[1..], t);
    }
  }

  /** Every character of `s` is whitespace. */
  predicate AllSpaces(s: string) {
    forall i :: 0 <= i < |s| ==> IsSpace(s[i])
  }

  /** The result of collapsing holds no whitespace. */
  lemma {:induction false} CollapseNoSpace(s: string)
    ensures NoSpace(CollapseSpaces(s))
    decreases |s|
  {
    if s == [] {
    } else if IsSpace(s[0]) {
      CollapseNoSpace(SkipSpaces(s[1..]));
    } else {
      CollapseNoSpace(s[1..]);
    }
  }

  /** A whole run of whitespace, followed by a non-space, becomes exactly one dash. */
  lemma {:induction false} CollapseRun(run: string, t: string)
    requires run != [] && AllSpaces(run)
    requires t == [] || !IsSpace(t[0])
    ensures CollapseSpaces(run + t) == "-" + CollapseSpaces(t)
  {
    assert (run + t)[0] == run[0] && (run + t)[1..] == run[1..] + t;
    SkipAllSpaces(run[1..], t);
  }

  lemma HeadOfAppend(a: string, b: string)
    requires a != []
    ensures (a + b)[0] == a[0] && (a + b)[1..] == a[1..] + b
  {
  }

  lemma AppendAssoc(x: string, y: string, z: string)
    ensures x + (y + z) == (x + y) + z
  {
  }

  /** One step of CollapseAppend: `a` opens with whitespace, and the rest of `a` after its leading run already splits. */
  lemma CollapseAppendSpace(a: string, b: string)
    requires a != [] && IsSpace(a[0]) && !IsSpace(a[|a| - 1])
    requires var t := SkipSpaces(a[1..]);
      CollapseSpaces(t + b) == CollapseSpaces(t) + CollapseSpaces(b)
    ensures CollapseSpaces(a + b) == CollapseSpaces(a) + CollapseSpaces(b)
  {
    var t := SkipSpaces(a[1..]);
    HeadOfAppend(a, b);
    SkipAppend(a[1..], b);
    AppendAssoc("-", CollapseSpaces(t), CollapseSpaces(b));
  }

  /** One step of CollapseAppend: `a` opens with a non-space, and the rest of `a` already splits. */
  lemma CollapseAppendOther(a: string, b: string)
    requires a != [] && !IsSpace(a[0])
    requires CollapseSpaces(a[1..] + b) == CollapseSpaces(a[1..]) + CollapseSpaces(b)
    ensures CollapseSpaces(a + b) == CollapseSpaces(a) + CollapseSpaces(b)
  {
    HeadOfAppend(a, b);
    AppendAssoc([a[0]], CollapseSpaces(a[1..]), CollapseSpaces(b));
  }

  /** No whitespace run crosses the end of `a` when `a` ends in a non-space, so the halves collapse apart. */
  lemma {:induction false} CollapseAppend(a: string, b: string)
    requires a == [] || !IsSpace(a[|a| - 1])
    ensures CollapseSpaces(a + b) == CollapseSpaces(a) + CollapseSpaces(b)
    decreases |a|
  {
    if a == [] {
      assert a + b == b;
    } else if IsSpace(a[0]) {
      SkipKeepsLast(a[1..]);
      CollapseAppend(SkipSpaces(a[1..]), b);
      CollapseAppendSpace(a, b);
    } else {
      CollapseAppend(a[1..], b);
      CollapseAppendOther(a, b);
    }
  }

  /** Collapsing leaves a string alone exactly when it holds no whitespace. */
  lemma {:induction false} CollapseIdentity(s: string)
    ensures CollapseSpaces(s) == s <==> NoSpace(s)
  {
    CollapseNoSpace(s);
    if s != [] && !IsSpace(s[0]) {
      CollapseIdentity(s[1..]);
      if NoSpace(s) {
        assert NoSpace(s[1..]);
      }
    }
  }

  /** The characters of `s` other than whitespace and dashes, in order. */
  function Solid(s: string): string {
    if s == [] then []
    else if IsSpace(s[0]) || s[0] == '-' then Solid(s[1..])
    else [s[0]] + Solid(s[1..])
  }

  lemma {:induction false} SkipSpacesSolid(s: string)
    ensures Solid(SkipSpaces(s)) == Solid(s)
  {
    if s != [] && IsSpace(s[0]) {
      SkipSpacesSolid(s[1..]);
    }
  }

  /** Collapsing changes only whitespace and dashes: every other character survives, in order. */
  lemma {:induction false} CollapseSpacesSolid(s: string)
    ensures Solid(CollapseSpaces(s)) == Solid(s)
    decreases |s|
  {
    if s == [] {
    } else if IsSpace(s[0]) {
      var t := SkipSpaces(s[1..]);
      CollapseSpacesSolid(t);
      SkipSpacesSolid(s[1..]);
      assert ("-" + CollapseSpaces(t))[1..] == CollapseSpaces(t);
    } else {
      CollapseSpacesSolid(s[1..]);
      assert ([s[0]] + CollapseSpaces(s[1..]))[1..] == CollapseSpaces(s[1..]);
    }
  }

  /** Stripping leaves only slug characters. */
  lemma {:induction false} StripOnlySlugChars(s: string)
    ensures AllSlugChars(StripDisallowed(s))
  {
    if s != [] {
      StripOnlySlugChars(s[1..]);
    }
  }

  /** Stripping keeps every slug character as often as it occurs, and nothing else. */
  lemma {:induction false} StripKeepsSlugChars(s: string, c: char)
    ensures multiset(StripDisallowed(s))[c] == if IsSlugChar(c) then multiset(s)[c] else 0
  {
    if s != [] {
      StripKeepsSlugChars(s[1..], c);
      assert s == [s[0]] + s[1..];
    }
  }

  /** Stripping leaves a string alone exactly when it holds only slug characters. */
  lemma {:induction false} StripIdentity(s: string)
    ensures StripDisallowed(s) == s <==> AllSlugChars(s)
  {
    StripOnlySlugChars(s);
    if s != [] && IsSlugChar(s[0]) {
      StripIdentity(s[1..]);
      if AllSlugChars(s) {
        assert AllSlugChars(s[1..]);
      }
    }
  }

  lemma {:induction false} StripAppend(a: string, b: string)
    ensures StripDisallowed(a + b) == StripDisallowed(a) + StripDisallowed(b)
  {
    if a == [] {
      assert a + b == b;
    } else {
      assert (a + b)[0] == a[0] && (a + b)[1..] == a[1..] + b;
      StripAppend(a[1..], b);
    }
  }

  /** A plain word's slug is the word in lower case. */
  lemma SlugifyPlain(w: string)
    requires Plain(w)
    ensures Slugify(w) == Lower(w)
  {
    var l := Lower(w);
    forall i | 0 <= i < |l| ensures IsSlugChar(l[i]) {
      LowerAt(w, i);
    }
    CollapseIdentity(l);
    StripIdentity(l);
  }

  /** A slug is its own slug, so slugifying an identifier a second time is harmless. */
  lemma SlugifyIdempotent(name: string)
    ensures Slugify(Slugify(name)) == Slugify(name)
  {
    var r := Slugify(name);
    SlugifyPlain(r);
    LowerIdentity(r);
  }

  lemma LowerSpace()
    ensures Lower(" ") == " "
  {
    LowerAt(" ", 0);
  }

  lemma StripDash()
    ensures StripDisallowed("-") == "-"
  {
  }

  lemma LowerJoin(a: string, b: string)
    ensures Lower(a + " " + b) == Lower(a) + (" " + Lower(b))
  {
    LowerAppend(a + " ", b);
    LowerAppend(a, " ");
    LowerSpace();
  }

  lemma CollapseJoin(a: string, sp: char, b: string)
    requires a != [] && !IsSpace(a[|a| - 1])
    requires IsSpace(sp)
    requires b == [] || !IsSpace(b[0])
    ensures CollapseSpaces(a + ([sp] + b)) == CollapseSpaces(a) + ("-" + CollapseSpaces(b))
  {
    CollapseAppend(a, [sp] + b);
    CollapseRun([sp], b);
  }

  lemma StripJoin(a: string, b: string)
    ensures StripDisallowed(a + ("-" + b)) == StripDisallowed(a) + "-" + StripDisallowed(b)
  {
    StripAppend(a, "-" + b);
    StripAppend("-", b);
    StripDash();
  }

  /** A single space between two words becomes a dash between their slugs. */
  lemma SlugifyJoin(a: string, b: string)
    requires a != [] && !IsSpace(a[|a| - 1])
    requires b == [] || !IsSpace(b[0])
    ensures Slugify(a + " " + b) == Slugify(a) + "-" + Slugify(b)
  {
    var la, lb := Lower(a), Lower(b);
    LowerAt(a, |a| - 1);
    if b != [] {
      LowerAt(b, 0);
    }
    LowerJoin(a, b);
    CollapseJoin(la, ' ', lb);
    StripJoin(CollapseSpaces(la), CollapseSpaces(lb));
  }

  /** A trailing character that is neither a letter, a digit, a dash nor whitespace leaves the slug unchanged. */
  lemma SlugifyDropsTrailing(a: string, c: char)
    requires a == [] || !IsSpace(a[|a| - 1])
    requires !IsUpper(c) && !IsSlugChar(c) && !IsSpace(c)
    ensures Slugify(a + [c]) == Slugify(a)
  {
    var la := Lower(a);
    LowerAppend(a, [c]);
    LowerAt([c], 0);
    if a != [] {
      LowerAt(a, |a| - 1);
    }
    CollapseAppend(la, [c]);
    assert CollapseSpaces([c]) == [c];
    StripAppend(CollapseSpaces(la), [c]);
    assert StripDisallowed([c]) == [];
  }

  /** A plain word and its lower case, checked character by character. */
  lemma PlainWord(w: string, lw: string)
    requires |w| == |lw|
    requires forall i :: 0 <= i < |w| ==> (IsUpper(w[i]) || IsSlugChar(w[i])) && LowerChar(w[i]) == lw[i]
    ensures Plain(w) && Lower(w) == lw
  {
    forall i | 0 <= i < |w| ensures Lower(w)[i] == lw[i] {
      LowerAt(w, i);
    }
  }

  /** Prefixing a plain word and a space to a name prefixes the word's lower case and a dash to its slug. */
  lemma SlugifyPrefixWord(a: string, rest: string)
    requires a != [] && Plain(a)
    requires rest == [] || !IsSpace(rest[0])
    ensures Slugify(a + " " + rest) == Lower(a) + "-" + Slugify(rest)
  {
    SlugifyPlain(a);
    SlugifyJoin(a, rest);
  }

  lemma SlugifyWallFan(w3: string, w4: string)
    requires w3 == "Wall" && w4 == "Fan"
    ensures Slugify(w3 + " " + w4) == "wall-fan"
  {
    PlainWord(w3, "wall");
    PlainWord(w4, "fan");
    SlugifyPlain(w4);
    SlugifyPrefixWord(w3, w4);
  }

  lemma SlugifyTurboForceWallFan(w2: string, w3: string, w4: string)
    requires w2 == "TurboForce" && w3 == "Wall" && w4 == "Fan"
    ensures Slugify(w2 + " " + (w3 + " " + w4)) == "turboforce-wall-fan"
  {
    PlainWord(w2, "turboforce");
    SlugifyWallFan(w3, w4);
    SlugifyPrefixWord(w2, w3 + " " + w4);
  }

  /** The identifier of the fan sold on the page: "Honeywell TurboForce Wall Fan". */
  lemma SlugifyFan(w1: string, w2: string, w3: string, w4: string)
    requires w1 == "Honeywell" && w2 == "TurboForce" && w3 == "Wall" && w4 == "Fan"
    ensures Slugify(w1 + " " + w2 + " " + w3 + " " + w4) == "honeywell-turboforce-wall-fan"
  {
    PlainWord(w1, "honeywell");
    SlugifyTurboForceWallFan(w2, w3, w4);
    SlugifyPrefixWord(w1, w2 + " " + (w3 + " " + w4));
    assert w1 + " " + w2 + " " + w3 + " " + w4 == w1 + " " + (w2 + " " + (w3 + " " + w4));
    FanSlugText();
  }

  /** The same example, on the product name as the page spells it. */
  lemma SlugifyFanName()
    ensures Slugify("Honeywell TurboForce Wall Fan") == "honeywell-turboforce-wall-fan"
  {
    SlugifyFan("Honeywell", "TurboForce", "Wall", "Fan");
    assert "Honeywell" + " " + "TurboForce" + " " + "Wall" + " " + "Fan" == "Honeywell TurboForce Wall Fan";
  }

  lemma FanSlugText()
    ensures "honeywell" + "-" + "turboforce-wall-fan" == "honeywell-turboforce-wall-fan"
  {
  }

  /** The identifier of the lamp sold on the page: "Desk Lamp". */
  lemma SlugifyLamp(w1: string, w2: string)
    requires w1 == "Desk" && w2 == "Lamp"
    ensures Slugify(w1 + " " + w2) == "desk-lamp"
  {
    PlainWord(w1, "desk");
    PlainWord(w2, "lamp");
    SlugifyPlain(w2);
    SlugifyPrefixWord(w1, w2);
  }

  /** Two names that differ only in removed characters share a slug, and so a popup. */
  lemma SlugifyCollision(name: string)
    requires name == "Desk Lamp"
    ensures Slugify(name + "!") == Slugify(name)
  {
    SlugifyDropsTrailing(name, '!');
  }
}
