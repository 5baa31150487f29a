/**
 * The `id=` query parameter of the weather request: the positive city ids,
 * in the order they were configured, written in decimal and separated by
 * single commas. `OpenWeatherMapClient.UpdateCityIdList` builds it in a loop;
 * `CityIdList` is the value that loop produces, id by id, and the lemmas
 * prove it equal to the comma-joined positive ids and lossless to read back.
 */
module CityIds {
  import opened ArduinoString

  /** The ids of `ids` that are strictly positive, in their input order. */
  function Positives(ids: seq<int>): (p: seq<int>)
    ensures |p| <= |ids|
    decreases |ids|
  {
    if ids == [] then []
    else Positives(ids[..|ids| - 1]) + (if ids[|ids| - 1] > 0 then [ids[|ids| - 1]] else [])
  }

  /** `parts` joined by single commas, with no comma before the first or after the last. */
  function JoinCommas(parts: seq<string>): string
    decreases |parts|
  {
    if |parts| == 0 then ""
    else if |parts| == 1 then parts[0]
    else JoinCommas(parts[..|parts| - 1]) + "," + parts[|parts| - 1]
  }

  function DecimalForms(ids: seq<int>): (forms: seq<string>)
    requires forall i :: 0 <= i < |ids| ==> ids[i] > 0
    ensures |forms| == |ids|
    ensures forall i :: 0 <= i < |ids| ==> forms[i] == Decimal(ids[i])
  {
    seq(|ids|, i requires 0 <= i < |ids| => Decimal(ids[i]))
  }

  /**
   * The value of the `id=` parameter for the configured ids `ids`, built one
   * id at a time: a positive id is appended in decimal, after a comma unless
   * nothing has been written yet.
   */
  function CityIdList(ids: seq<int>): string
    decreases |ids|
  {
    if ids == [] then ""
    else
      var before := CityIdList(ids[..|ids| - 1]);
      var id := ids[|ids| - 1];
      if id <= 0 then before
      else if before == "" then Decimal(id)
      else before + "," + Decimal(id)
  }

  /** The reference form of the parameter: the decimal forms of the positive ids, comma-joined. */
  function JoinedPositives(ids: seq<int>): string
  {
    PositivesArePositive(ids);
    JoinCommas(DecimalForms(Positives(ids)))
  }

  /**
   * The fields of a comma-separated list: the text between consecutive
   * commas. The empty string has no field.
   */
  function Fields(s: string): seq<string>
  {
    if s == "" then [] else Pieces(s)
  }

  function Pieces(s: string): (p: seq<string>)
    ensures |p| >= 1
    decreases |s|
  {
    if s == [] then [""]
    else if s[|s| - 1] == ',' then Pieces(s[..|s| - 1]) + [""]
    else
      var q := Pieces(s[..|s| - 1]);
      q[..|q| - 1] + [q[|q| - 1] + [s[|s| - 1]]]
  }

  /** The leading `count` ids of `ids`, none when `count` is not positive. */
  function Prefix(ids: seq<int>, count: int): seq<int>
    requires count <= |ids|
  {
    if count <= 0 then [] else ids[..count]
  }

  lemma {:induction false} PositivesArePositive(ids: seq<int>)
    ensures forall i :: 0 <= i < |Positives(ids)| ==> Positives(ids)[i] > 0
    decreases |ids|
  {
    if ids != [] {
      PositivesArePositive(ids[..|ids| - 1]);
    }
  }

  /** An id is kept exactly when it is positive and occurs in the input. */
  lemma {:induction false} PositivesMembers(ids: seq<int>, x: int)
    ensures x in Positives(ids) <==> x in ids && x > 0
    decreases |ids|
  {
    if ids != [] {
      var init := ids[..|ids| - 1];
      PositivesMembers(init, x);
      assert ids == init + [ids[|ids| - 1]];
    }
  }

  /** Appending one id extends the kept ids by it exactly when it is positive. */
  lemma PositivesAppend(ids: seq<int>, x: int)
    ensures Positives(ids + [x]) == Positives(ids) + (if x > 0 then [x] else [])
  {
    assert (ids + [x])[..|ids|] == ids;
  }

  lemma {:induction false} JoinCommasEmpty(parts: seq<string>)
    requires forall i :: 0 <= i < |parts| ==> parts[i] != ""
    ensures JoinCommas(parts) == "" <==> parts == []
    decreases |parts|
  {
    if |parts| > 1 {
      JoinCommasEmpty(parts[..|parts| - 1]);
    }
  }

  /** The list built one id at a time is the comma-joined decimal forms of the positive ids. */
  lemma {:induction false} CityIdListIsJoin(ids: seq<int>)
    ensures CityIdList(ids) == JoinedPositives(ids)
    decreases |ids|
  {
    if ids != [] {
      var init, x := ids[..|ids| - 1], ids[|ids| - 1];
      CityIdListIsJoin(init);
      assert ids == init + [x];
      PositivesAppend(init, x);
      PositivesArePositive(init);
      PositivesArePositive(ids);
      var before := DecimalForms(Positives(init));
      var after := DecimalForms(Positives(ids));
      if x > 0 {
        assert after == before + [Decimal(x)];
        assert after[..|after| - 1] == before;
        JoinCommasEmpty(before);
      } else {
        assert after == before;
      }
    }
  }

  /** The list is empty exactly when no configured id is positive. */
  lemma CityIdListEmpty(ids: seq<int>)
    ensures CityIdList(ids) == "" <==> forall i :: 0 <= i < |ids| ==> ids[i] <= 0
  {
    CityIdListIsJoin(ids);
    PositivesArePositive(ids);
    JoinCommasEmpty(DecimalForms(Positives(ids)));
    if Positives(ids) != [] {
      PositivesMembers(ids, Positives(ids)[0]);
    } else {
      forall i | 0 <= i < |ids| ensures ids[i] <= 0 {
        PositivesMembers(ids, ids[i]);
      }
    }
  }

  lemma {:induction false} JoinCommasShape(parts: seq<string>)
    requires forall i :: 0 <= i < |parts| ==> parts[i] != "" && AllDigits(parts[i])
    ensures var s := JoinCommas(parts);
      forall i :: 0 <= i < |s| ==> IsDigit(s[i]) || s[i] == ','
    ensures var s := JoinCommas(parts);
      s != "" ==> IsDigit(s[0]) && IsDigit(s[|s| - 1])
    decreases |parts|
  {
    if |parts| > 1 {
      JoinCommasShape(parts[..|parts| - 1]);
      var a := JoinCommas(parts[..|parts| - 1]);
      var s := a + "," + parts[|parts| - 1];
      forall i | 0 <= i < |s| ensures IsDigit(s[i]) || s[i] == ',' {
        if i < |a| { assert s[i] == a[i]; }
        else if i > |a| { assert s[i] == parts[|parts| - 1][i - |a| - 1]; }
      }
    }
  }

  /**
   * The list holds only digits and commas, and neither starts nor ends with
   * a comma.
   */
  lemma CityIdListShape(ids: seq<int>)
    ensures var s := CityIdList(ids);
      (forall i :: 0 <= i < |s| ==> IsDigit(s[i]) || s[i] == ',') &&
      (s != "" ==> s[0] != ',' && s[|s| - 1] != ',')
  {
    CityIdListIsJoin(ids);
    PositivesArePositive(ids);
    JoinCommasShape(DecimalForms(Positives(ids)));
  }

  lemma {:induction false} PiecesAppend(a: string, b: string)
    requires forall i :: 0 <= i < |b| ==> b[i] != ','
    ensures Pieces(a + "," + b) == Pieces(a) + [b]
    decreases |b|
  {
    if b == [] {
      assert (a + "," + b)[..|a|] == a;
    } else {
      var init := b[..|b| - 1];
      PiecesAppend(a, init);
      assert (a + "," + b)[..|a + "," + b| - 1] == a + "," + init;
      assert init + [b[|b| - 1]] == b;
    }
  }

  lemma {:induction false} PiecesSingle(b: string)
    requires forall i :: 0 <= i < |b| ==> b[i] != ','
    ensures Pieces(b) == [b]
    decreases |b|
  {
    if b != [] {
      PiecesSingle(b[..|b| - 1]);
      assert b[..|b| - 1] + [b[|b| - 1]] == b;
    }
  }

  /** Splitting a comma-joined list at its commas gives back its parts. */
  lemma {:induction false} FieldsOfJoin(parts: seq<string>)
    requires forall i :: 0 <= i < |parts| ==> parts[i] != ""
    requires forall i, j :: 0 <= i < |parts| && 0 <= j < |parts[i]| ==> parts[i][j] != ','
    ensures Fields(JoinCommas(parts)) == parts
    decreases |parts|
  {
    if |parts| == 1 {
      PiecesSingle(parts[0]);
    } else if |parts| > 1 {
      var init := parts[..|parts| - 1];
      FieldsOfJoin(init);
      JoinCommasEmpty(init);
      PiecesAppend(JoinCommas(init), parts[|parts| - 1]);
      assert init + [parts[|parts| - 1]] == parts;
    }
  }

  /**
   * The request parameter is lossless: splitting it at its commas and reading
   * each field with `toInt()` gives back exactly the positive ids, in order.
   */
  lemma CityIdListRoundTrip(ids: seq<int>)
    ensures |Fields(CityIdList(ids))| == |Positives(ids)|
    ensures forall i :: 0 <= i < |Positives(ids)| ==> ToInt(Fields(CityIdList(ids))[i]) == Positives(ids)[i]
  {
    CityIdListIsJoin(ids);
    PositivesArePositive(ids);
    var forms := DecimalForms(Positives(ids));
    forall i, j | 0 <= i < |forms| && 0 <= j < |forms[i]| ensures forms[i][j] != ',' {
      assert IsDigit(forms[i][j]);
    }
    FieldsOfJoin(forms);
    forall i | 0 <= i < |Positives(ids)| ensures ToInt(forms[i]) == Positives(ids)[i] {
      DecimalRoundTrip(Positives(ids)[i]);
    }
  }

  /** Example: `[0, 5200, -3, 1234]` gives `"5200,1234"`. */
  lemma CityIdListExample()
    ensures CityIdList([0, 5200, -3, 1234]) == "5200,1234"
  {
    var a, b, c, d := [0], [0, 5200], [0, 5200, -3], [0, 5200, -3, 1234];
    assert a[..0] == [] && b[..1] == a && c[..2] == b && d[..3] == c;
    assert CityIdList(a) == "";
    assert Decimal(5200) == "5200";
    assert CityIdList(b) == "5200";
    assert CityIdList(c) == "5200";
    assert Decimal(1234) == "1234";
  }
}
