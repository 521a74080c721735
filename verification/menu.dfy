/** The numbered menu: the map from `str(k)` to the k-th offered name, the
    rule that accepts a typed line, and the loop that re-prompts until a
    line is accepted. */
module Menu {
  import opened Common
  import opened Decimal

  /** The selection map the script builds with `map[str(i + 1)] = name`
      while enumerating the offered names. */
  function SelectionMap(names: seq<string>): (m: map<string, string>)
    ensures forall key :: key in m ==> IsDigits(key) && m[key] in names
  {
    if |names| == 0 then map[]
    else SelectionMap(names[..|names| - 1])[Show(|names|) := names[|names| - 1]]
  }

  /** The map has one key per offered name, key `str(k)` resolves to the
      k-th name, and every key is a valid choice for a menu of that size. */
  lemma {:induction false} SelectionMapShape(names: seq<string>)
    ensures |SelectionMap(names)| == |names|
    ensures forall k :: 1 <= k <= |names| ==>
              Show(k) in SelectionMap(names) && SelectionMap(names)[Show(k)] == names[k - 1]
    ensures forall key :: key in SelectionMap(names) ==> ValidChoice(key, |names|)
  {
    if |names| > 0 {
      var n := |names|;
      var init := names[..n - 1];
      SelectionMapShape(init);
      var prev := SelectionMap(init);
      var m := SelectionMap(names);
      assert m == prev[Show(n) := names[n - 1]];
      assert Show(n) !in prev by {
        ValueOfShow(n);
      }
      forall k | 1 <= k <= n
        ensures Show(k) in m && m[Show(k)] == names[k - 1]
      {
        if k < n {
          assert init[k - 1] == names[k - 1];
          assert Show(k) != Show(n) by {
            ValueOfShow(k);
            ValueOfShow(n);
          }
        }
      }
      forall key | key in m
        ensures ValidChoice(key, n)
      {
        if key == Show(n) {
          ValueOfShow(n);
        }
      }
    } else {
      assert SelectionMap(names) == map[];
    }
  }

  /** The test the script applies to a typed line: `line.isdigit() and line in map`. */
  predicate Accepts(m: map<string, string>, line: string) {
    IsDigits(line) && line in m
  }

  /** Reference rule for a menu of `n` entries: the line is a decimal
      numeral without a leading zero whose value lies in 1..n. */
  predicate ValidChoice(line: string, n: nat) {
    IsPositiveDecimal(line) && 1 <= Value(line) <= n
  }

  /** The script's test accepts exactly the valid choices. */
  lemma {:induction false} AcceptsIffValidChoice(names: seq<string>, line: string)
    ensures Accepts(SelectionMap(names), line) <==> ValidChoice(line, |names|)
  {
    var m := SelectionMap(names);
    SelectionMapShape(names);
    if ValidChoice(line, |names|) {
      ShowOfValue(line);
      assert Show(Value(line)) in m;
    }
  }

  /** An accepted line resolves to the entry at the position it denotes. */
  lemma {:induction false} AcceptedLineResolves(names: seq<string>, line: string)
    requires ValidChoice(line, |names|)
    ensures line in SelectionMap(names) && SelectionMap(names)[line] == names[Value(line) - 1]
  {
    SelectionMapShape(names);
    ShowOfValue(line);
  }

  /** Lines the script turns away for every menu: the empty line, zero, a
      leading zero, the number one past the end, and any line with a
      character that is not a digit. */
  lemma {:induction false} RejectedLines(names: seq<string>, line: string)
    ensures !Accepts(SelectionMap(names), "")
    ensures !Accepts(SelectionMap(names), "0")
    ensures !Accepts(SelectionMap(names), "01")
    ensures !Accepts(SelectionMap(names), Show(|names| + 1))
    ensures (exists i :: 0 <= i < |line| && !IsDigit(line[i])) ==> !Accepts(SelectionMap(names), line)
  {
    SelectionMapShape(names);
    AcceptsIffValidChoice(names, "");
    AcceptsIffValidChoice(names, "0");
    AcceptsIffValidChoice(names, "01");
    AcceptsIffValidChoice(names, Show(|names| + 1));
    ValueOfShow(|names| + 1);
  }

  /** The line that ended the loop: its position among the lines typed,
      the line itself, and the name it resolved to. */
  datatype Pick = Pick(attempt: nat, line: string, name: string)

  /** The re-prompt loop over the lines the user types, in order. It stops
      at the first accepted line; `None` means the lines ran out first. */
  method PromptLoop(m: map<string, string>, lines: seq<string>) returns (r: Option<Pick>)
    ensures r.Some? ==>
              && r.value.attempt < |lines|
              && r.value.line == lines[r.value.attempt]
              && Accepts(m, r.value.line)
              && r.value.name == m[r.value.line]
              && forall j :: 0 <= j < r.value.attempt ==> !Accepts(m, lines[j])
    ensures r.None? ==> forall j :: 0 <= j < |lines| ==> !Accepts(m, lines[j])
  {
    var i := 0;
    while i < |lines|
      invariant 0 <= i <= |lines|
      invariant forall j :: 0 <= j < i ==> !Accepts(m, lines[j])
    {
      var line := lines[i];
      if Accepts(m, line) {
        return Some(Pick(i, line, m[line]));
      }
      i := i + 1;
    }
    return None;
  }

  /** Reference definition of the loop's stopping point: the position of
      the first line that is a valid choice for a menu of `n` entries. */
  function FirstValid(lines: seq<string>, n: nat): (r: Option<nat>)
    ensures r.Some? ==> r.value < |lines| && ValidChoice(lines[r.value], n)
    ensures r.Some? ==> forall j :: 0 <= j < r.value ==> !ValidChoice(lines[j], n)
    ensures r.None? ==> forall j :: 0 <= j < |lines| ==> !ValidChoice(lines[j], n)
  {
    if |lines| == 0 then None
    else if ValidChoice(lines[0], n) then Some(0)
    else
      match FirstValid(lines[1..], n)
      case None => None
      case Some(i) => Some(i + 1)
  }

  /** The first valid choice is where every earlier line is invalid. */
  lemma FirstValidAt(lines: seq<string>, n: nat, i: nat)
    requires i < |lines| && ValidChoice(lines[i], n)
    requires forall j :: 0 <= j < i ==> !ValidChoice(lines[j], n)
    ensures FirstValid(lines, n) == Some(i)
  {
  }

  /** Reference definition of a whole selection: the name the first valid
      line denotes, if any line is valid. */
  function Resolve(names: seq<string>, lines: seq<string>): (r: Option<string>)
    ensures r.Some? <==> FirstValid(lines, |names|).Some?
    ensures r.Some? ==> r.value in names
  {
    match FirstValid(lines, |names|)
    case None => None
    case Some(i) => Some(names[Value(lines[i]) - 1])
  }
}
