/**
 * The city-name fix-up of `getCity`: every `"oe"` becomes `"ö"`. The source
 * file is UTF-8, so `"ö"` is the two bytes 0xC3 0xB6 and the replacement keeps
 * the length of the name, which lets `String::replace` rewrite it in place.
 */
module CityNames {
  import opened ArduinoString

  /** `"ö"` as the two bytes of its UTF-8 encoding. */
  const Umlaut: string := "\U{00C3}\U{00B6}"

  /** The stored city name after `replace("oe", "ö")`. */
  function Transliterate(name: string): (r: string)
    ensures |r| == |name|
  {
    Replace(name, "oe", Umlaut)
  }

  /** `s` holds the byte `a` immediately followed by the byte `b`. */
  predicate HasPair(s: string, a: char, b: char) {
    exists i :: 0 <= i < |s| - 1 && s[i] == a && s[i + 1] == b
  }

  /** No `"oe"` is left after the replacement, not even one formed across a replaced pair. */
  lemma {:induction false} TransliterateRemovesOe(name: string)
    ensures !HasPair(Transliterate(name), 'o', 'e')
    decreases |name|
  {
    var r := Transliterate(name);
    if |name| < 2 {
    } else if name[..2] == "oe" {
      var t := Transliterate(name[2..]);
      TransliterateRemovesOe(name[2..]);
      assert r == Umlaut + t;
      forall i | 0 <= i < |r| - 1 ensures !(r[i] == 'o' && r[i + 1] == 'e') {
        if i >= 2 {
          assert r[i] == t[i - 2] && r[i + 1] == t[i - 1];
        }
      }
    } else {
      var t := Transliterate(name[1..]);
      TransliterateRemovesOe(name[1..]);
      assert r == [name[0]] + t;
      forall i | 0 <= i < |r| - 1 ensures !(r[i] == 'o' && r[i + 1] == 'e') {
        if i >= 1 {
          assert r[i] == t[i - 1] && r[i + 1] == t[i];
        } else {
          assert name[0] == 'o' ==> name[1] != 'e' by {
            assert name[..2] == [name[0], name[1]];
          }
        }
      }
    }
  }

  /** A name without `"oe"` is returned as it is. */
  lemma {:induction false} TransliterateWithoutOe(name: string)
    requires !HasPair(name, 'o', 'e')
    ensures Transliterate(name) == name
    decreases |name|
  {
    if |name| >= 2 {
      assert name[..2] != "oe" by {
        assert !(name[0] == 'o' && name[1] == 'e');
      }
      var tail := name[1..];
      assert !HasPair(tail, 'o', 'e') by {
        forall i | 0 <= i < |tail| - 1 ensures !(tail[i] == 'o' && tail[i + 1] == 'e') {
          assert tail[i] == name[i + 1] && tail[i + 1] == name[i + 2];
        }
      }
      TransliterateWithoutOe(tail);
      assert [name[0]] + tail == name;
    }
  }

  /** Calling `getCity` again on an already transliterated name changes nothing. */
  lemma TransliterateIdempotent(name: string)
    ensures Transliterate(Transliterate(name)) == Transliterate(name)
  {
    TransliterateRemovesOe(name);
    TransliterateWithoutOe(Transliterate(name));
  }

  /**
   * Nothing is lost: on a name that held no `"ö"` before, replacing each
   * `"ö"` back by `"oe"` gives the original name.
   */
  lemma {:induction false} TransliterateReversible(name: string)
    requires !HasPair(name, Umlaut[0], Umlaut[1])
    ensures Replace(Transliterate(name), Umlaut, "oe") == name
    decreases |name|
  {
    var r := Transliterate(name);
    if |name| < 2 {
    } else if name[..2] == "oe" {
      var tail := name[2..];
      assert !HasPair(tail, Umlaut[0], Umlaut[1]) by {
        forall i | 0 <= i < |tail| - 1 ensures !(tail[i] == Umlaut[0] && tail[i + 1] == Umlaut[1]) {
          assert tail[i] == name[i + 2] && tail[i + 1] == name[i + 3];
        }
      }
      TransliterateReversible(tail);
      var t := Transliterate(tail);
      assert r == Umlaut + t;
      assert r[..2] == Umlaut && r[2..] == t;
      assert "oe" + tail == name;
    } else {
      var tail := name[1..];
      assert !HasPair(tail, Umlaut[0], Umlaut[1]) by {
        forall i | 0 <= i < |tail| - 1 ensures !(tail[i] == Umlaut[0] && tail[i + 1] == Umlaut[1]) {
          assert tail[i] == name[i + 1] && tail[i + 1] == name[i + 2];
        }
      }
      TransliterateReversible(tail);
      var t := Transliterate(tail);
      assert r == [name[0]] + t;
      assert r[..2] != Umlaut by {
        assert !(name[0] == Umlaut[0] && name[1] == Umlaut[1]);
        assert t[0] == tail[0] || t[0] == Umlaut[0];
        assert r[..2] == [name[0], t[0]];
      }
      assert r[1..] == t;
      assert [name[0]] + tail == name;
    }
  }

  /** Examples, including the false positive on "Foetus". */
  lemma TransliterateExamples()
    ensures Transliterate("Koeln") == "K" + Umlaut + "ln"
    ensures Transliterate("Moers") == "M" + Umlaut + "rs"
    ensures Transliterate("Foetus") == "F" + Umlaut + "tus"
  {
    var koeln, moers, foetus := "Koeln", "Moers", "Foetus";
    assert koeln == "K" + "oe" + "ln";
    OeAfterFirst(koeln, "ln");
    assert moers == "M" + "oe" + "rs";
    OeAfterFirst(moers, "rs");
    assert foetus == "F" + "oe" + "tus";
    OeAfterFirst(foetus, "tus");
  }

  lemma OeAfterFirst(name: string, rest: string)
    requires |name| >= 3 && name == [name[0]] + "oe" + rest && name[0] != 'o'
    requires forall i :: 0 <= i < |rest| ==> rest[i] != 'o'
    ensures Transliterate(name) == [name[0]] + Umlaut + rest
  {
    assert name[..2] != "oe" by { assert name[..2][0] == name[0]; }
    var tail := name[1..];
    assert tail == "oe" + rest;
    assert tail[..2] == "oe" && tail[2..] == rest;
    assert Transliterate(tail) == Umlaut + Transliterate(rest);
    assert !HasPair(rest, 'o', 'e');
    TransliterateWithoutOe(rest);
    assert Transliterate(name) == [name[0]] + Transliterate(tail);
  }
}
