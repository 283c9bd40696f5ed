/** The reporting month a file name stands for: the leftmost run of six
    decimal digits `YYYYMM` gives `YYYY-MM`; without one the month is
    `"unknown"`. This is the regular expression `(\d{4})(\d{2})`. */
module MonthLabel {
  import opened SaftTypes

  /** What `\d` matches without the `u` flag. */
  predicate IsDigit(c: char) {
    '0' <= c <= '9'
  }

  /** Six digits start at position `i` of `s`. */
  predicate SixDigitsAt(s: string, i: int) {
    0 <= i && i + 6 <= |s| && forall j | i <= j < i + 6 :: IsDigit(s[j])
  }

  /** The first position at or after `i` where the pattern matches. */
  function FirstRunFrom(s: string, i: nat): (r: Option<nat>)
    requires i <= |s|
    ensures r.Some? ==> i <= r.value && SixDigitsAt(s, r.value)
    ensures r.Some? ==> forall j | i <= j < r.value :: !SixDigitsAt(s, j)
    ensures r.None? ==> forall j | i <= j :: !SixDigitsAt(s, j)
    decreases |s| - i
  {
    if i + 6 > |s| then None
    else if SixDigitsAt(s, i) then Some(i)
    else FirstRunFrom(s, i + 1)
  }

  /** The month label of a file name. */
  function Month(name: string): (r: string)
    ensures r == "unknown" <==> forall i :: !SixDigitsAt(name, i)
    ensures forall i | SixDigitsAt(name, i) && (forall j | 0 <= j < i :: !SixDigitsAt(name, j)) ::
              r == name[i..i + 4] + "-" + name[i + 4..i + 6]
  {
    match FirstRunFrom(name, 0)
    case None => "unknown"
    case Some(i) =>
      var r := name[i..i + 4] + "-" + name[i + 4..i + 6];
      assert r[4] == '-' != "unknown"[4];
      r
  }

  /** The file name of the usual monthly export. */
  lemma MonthExample()
    ensures Month("SAFT-202501.xml") == "2025-01"
  {
    var name := "SAFT-202501.xml";
    assert name[4] == '-' && !IsDigit(name[4]);
    assert name[5] == '2' && name[6] == '0' && name[7] == '2' && name[8] == '5' && name[9] == '0' && name[10] == '1';
    assert SixDigitsAt(name, 5);
    assert name[5..9] == "2025" && name[9..11] == "01";
  }
}
