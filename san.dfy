// Removal of SAN decorators (+ # ? !) and of the promotion '='.

module San {

  /**
   * The characters cleanSan strips from the end. The lookup is strchr on
   * "+#?!", which also finds the string's terminating NUL.
   */
  predicate IsDecorator(c: char)
  {
    c == '+' || c == '#' || c == '?' || c == '!' || c == '\0'
  }

  /** Length of s once its maximal run of trailing decorators is removed. */
  function UndecoratedLength(s: string): (k: nat)
    ensures k <= |s|
    ensures forall i | k <= i < |s| :: IsDecorator(s[i])
    ensures k == 0 || !IsDecorator(s[k - 1])
  {
    if |s| == 0 || !IsDecorator(s[|s| - 1]) then |s| else UndecoratedLength(s[..|s| - 1])
  }

  /** Index of the last '=' of s, or -1. */
  function LastEquals(s: string): (j: int)
    ensures -1 <= j < |s|
    ensures j >= 0 ==> s[j] == '='
    ensures forall i | j < i < |s| :: s[i] != '='
  {
    if |s| == 0 then -1 else if s[|s| - 1] == '=' then |s| - 1 else LastEquals(s[..|s| - 1])
  }

  /** The trailing decorators go, then the last '=' before them. */
  function CleanSanSpec(san: string): (r: string)
  {
    var head := san[..UndecoratedLength(san)];
    var j := LastEquals(head);
    if j < 0 then head else head[..j] + head[j + 1..]
  }

  /** cleanSan: erases trailing decorators one by one, then the rightmost '='. */
  method CleanSan(san: string) returns (r: string)
    ensures r == CleanSanSpec(san)
  {
    r := san;
    var i := |r| - 1;
    while i >= 0 && IsDecorator(r[i])
      invariant -1 <= i < |r| && |r| == i + 1
      invariant r == san[..|r|]
      invariant UndecoratedLength(san) == UndecoratedLength(r)
      decreases i
    {
      r := r[..i];
      i := i - 1;
    }
    assert UndecoratedLength(r) == |r|;
    ghost var head := r;
    while i >= 0
      invariant -1 <= i < |r|
      invariant r == head
      invariant forall k | i < k < |head| :: head[k] != '='
      decreases i
    {
      if r[i] == '=' {
        r := r[..i] + r[i + 1..];
        assert LastEquals(head) == i;
        return;
      }
      i := i - 1;
    }
    assert LastEquals(head) == -1;
  }

  /** The result keeps every character but the stripped ones, in order. */
  lemma CleanSanKeeps(san: string)
    ensures var k := UndecoratedLength(san); var j := LastEquals(san[..k]);
      CleanSanSpec(san) == if j < 0 then san[..k] else san[..j] + san[j + 1..k]
    ensures |CleanSanSpec(san)| <= |san|
  {
    var k := UndecoratedLength(san);
    var head := san[..k];
    var j := LastEquals(head);
    if j >= 0 {
      assert head[..j] == san[..j];
      assert head[j + 1..] == san[j + 1..k];
    }
  }

  lemma CleanSanExamples()
    ensures CleanSanSpec("Bxe6+!!") == "Bxe6"
    ensures CleanSanSpec("a8=Q#") == "a8Q"
    ensures CleanSanSpec("Nf3") == "Nf3"
  {
    assert UndecoratedLength("Bxe6+!!") == 4 by {
      assert "Bxe6+!!"[..6] == "Bxe6+!";
      assert "Bxe6+!"[..5] == "Bxe6+";
      assert "Bxe6+"[..4] == "Bxe6";
    }
    assert "Bxe6+!!"[..4] == "Bxe6";
    assert LastEquals("Bxe6") == -1 by {
      assert "Bxe6"[..3] == "Bxe";
      assert "Bxe"[..2] == "Bx";
      assert "Bx"[..1] == "B";
      assert "B"[..0] == "";
    }
    assert UndecoratedLength("a8=Q#") == 4 by {
      assert "a8=Q#"[..4] == "a8=Q";
    }
    assert "a8=Q#"[..4] == "a8=Q";
    assert LastEquals("a8=Q") == 2 by {
      assert "a8=Q"[..3] == "a8=";
    }
    assert "a8=Q"[..2] + "a8=Q"[3..] == "a8Q";
    assert "Nf3"[..3] == "Nf3";
    assert LastEquals("Nf3") == -1 by {
      assert "Nf3"[..2] == "Nf";
      assert "Nf"[..1] == "N";
      assert "N"[..0] == "";
    }
  }
}
