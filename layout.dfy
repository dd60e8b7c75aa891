/** A generic definition of "group a digit stream and put a separator
    between groups, but only in front of a group that has begun".
    It is the reference the keystroke masks are proved against. */
module Layout {
  import opened Digits

  function Total(sizes: seq<nat>): nat {
    if sizes == [] then 0 else sizes[0] + Total(sizes[1..])
  }

  /** Cut `d` into consecutive groups of the given sizes (the last group
      may be short, later groups may be missing) and write `seps[k]` in
      front of group `k + 1` when that group holds at least one character.
      Characters beyond the total size are dropped. */
  function Render(d: string, sizes: seq<nat>, seps: string): string
    requires |sizes| == |seps| + 1
    decreases |seps|
  {
    if |seps| == 0 then Take(d, sizes[0])
    else if |d| <= sizes[0] then d
    else d[..sizes[0]] + [seps[0]] + Render(d[sizes[0]..], sizes[1..], seps[1..])
  }

  predicate NoDigitIn(seps: string) {
    forall i :: 0 <= i < |seps| ==> !IsDigit(seps[i])
  }

  predicate AllPositive(sizes: seq<nat>) {
    forall i :: 0 <= i < |sizes| ==> sizes[i] > 0
  }

  /** Removing the separators again gives back the digits, truncated to the
      total size of the groups. */
  lemma {:induction false} RenderDigits(d: string, sizes: seq<nat>, seps: string)
    requires |sizes| == |seps| + 1
    requires AllDigits(d) && NoDigitIn(seps)
    ensures SomenteNumeros(Render(d, sizes, seps)) == Take(d, Total(sizes))
  {
    if |seps| == 0 {
      assert sizes[1..] == [];
      SomenteNumerosOfDigits(Take(d, sizes[0]));
    } else if |d| <= sizes[0] {
      SomenteNumerosOfDigits(d);
    } else {
      var head, rest := d[..sizes[0]], d[sizes[0]..];
      RenderDigits(rest, sizes[1..], seps[1..]);
      SomenteNumerosConcat(head + [seps[0]], Render(rest, sizes[1..], seps[1..]));
      SomenteNumerosConcat(head, [seps[0]]);
      SomenteNumerosOfDigits(head);
      SomenteNumerosOfNonDigits([seps[0]]);
      assert d == head + rest;
      assert Take(d, Total(sizes)) == head + Take(rest, Total(sizes[1..]));
    }
  }

  /** Every character of the rendering is a digit of `d` or a separator. */
  lemma {:induction false} RenderAlphabet(d: string, sizes: seq<nat>, seps: string, i: nat)
    requires |sizes| == |seps| + 1
    requires i < |Render(d, sizes, seps)|
    ensures Render(d, sizes, seps)[i] in d || Render(d, sizes, seps)[i] in seps
  {
    if |seps| == 0 {
      assert Render(d, sizes, seps)[i] == d[i];
    } else if |d| <= sizes[0] {
    } else {
      var head, rest := d[..sizes[0]], d[sizes[0]..];
      var tail := Render(rest, sizes[1..], seps[1..]);
      assert Render(d, sizes, seps) == head + [seps[0]] + tail;
      if i < |head| {
        assert Render(d, sizes, seps)[i] == d[i];
      } else if i > |head| {
        RenderAlphabet(rest, sizes[1..], seps[1..], i - |head| - 1);
        assert Render(d, sizes, seps)[i] == tail[i - |head| - 1];
        assert forall c :: c in rest ==> c in d;
        assert forall c :: c in seps[1..] ==> c in seps;
      }
    }
  }

  /** No dangling separator: each non-digit of the rendering sits between
      two digits, so it never comes first, never comes last and is never
      doubled. */
  lemma {:induction false} RenderSeparatorsEnclosed(d: string, sizes: seq<nat>, seps: string, i: nat)
    requires |sizes| == |seps| + 1
    requires AllDigits(d) && AllPositive(sizes)
    requires i < |Render(d, sizes, seps)| && !IsDigit(Render(d, sizes, seps)[i])
    ensures 0 < i < |Render(d, sizes, seps)| - 1
    ensures IsDigit(Render(d, sizes, seps)[i - 1]) && IsDigit(Render(d, sizes, seps)[i + 1])
  {
    if |seps| == 0 || |d| <= sizes[0] {
      // the rendering is a prefix of `d`, so it holds no separator
      assert false;
    } else {
      var head, rest := d[..sizes[0]], d[sizes[0]..];
      var tail := Render(rest, sizes[1..], seps[1..]);
      var r := Render(d, sizes, seps);
      assert r == head + [seps[0]] + tail;
      assert AllPositive(sizes[1..]) by {
        forall k | 0 <= k < |sizes[1..]| ensures sizes[1..][k] > 0 {
          assert sizes[1..][k] == sizes[k + 1];
        }
      }
      assert AllDigits(rest);
      assert |head| == sizes[0] > 0;
      assert |tail| > 0 && tail[0] == rest[0] by {
        if |seps| == 1 {
          assert tail == Take(rest, sizes[1]);
        } else if |rest| <= sizes[1] {
        } else {
          assert tail == rest[..sizes[1]] + [seps[1]] + Render(rest[sizes[1]..], sizes[2..], seps[2..]);
        }
      }
      if i < |head| {
        assert false;
      } else if i == |head| {
        assert r[i - 1] == d[i - 1];
        assert r[i + 1] == tail[0];
      } else {
        var j := i - |head| - 1;
        assert r[i] == tail[j];
        RenderSeparatorsEnclosed(rest, sizes[1..], seps[1..], j);
        assert r[i - 1] == tail[j - 1];
        assert r[i + 1] == tail[j + 1];
      }
    }
  }
}
