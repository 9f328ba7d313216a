/** The naming normalizer of repository.go: `CamelToSnake` turns table and
    column identifiers such as "CustomerOrder" into "customer_order". */
module Naming {
  import opened Text

  /** What one character of the input contributes: an ASCII capital becomes
      its lower-case letter, preceded by '_' unless it is the first character;
      anything else is copied. */
  function Piece(c: char, first: bool): (r: string)
    ensures NoUpper(r)
  {
    if IsUpper(c) then
      if first then [LowerChar(c)] else ['_', LowerChar(c)]
    else [c]
  }

  /** Number of ASCII capitals in `s`. */
  function Capitals(s: string): nat
  {
    if |s| == 0 then 0 else (if IsUpper(s[0]) then 1 else 0) + Capitals(s[1..])
  }

  /** The pieces of the characters after the first, in order: every capital
      gains an underscore, so the text grows by one per capital. */
  function InnerPieces(s: string): (r: string)
    ensures NoUpper(r)
    ensures |r| == |s| + Capitals(s)
  {
    if |s| == 0 then "" else Piece(s[0], false) + InnerPieces(s[1..])
  }

  /** `CamelToSnake`: the Go loop emits one piece per character, the first
      without an underscore. The result holds no capitals, starts with the
      (lower-cased) first character, and gains one underscore per capital
      after the first character. */
  function CamelToSnake(s: string): (r: string)
    ensures NoUpper(r)
    ensures |s| > 0 ==> |r| == |s| + Capitals(s[1..]) && r[0] == LowerChar(s[0])
    ensures |s| == 0 ==> r == ""
  {
    if |s| == 0 then "" else Piece(s[0], true) + InnerPieces(s[1..])
  }

  lemma {:induction false} InnerPiecesKeepsLowercase(s: string)
    requires NoUpper(s)
    ensures InnerPieces(s) == s
  {
    if |s| > 0 {
      InnerPiecesKeepsLowercase(s[1..]);
      assert s == [s[0]] + s[1..];
    }
  }

  /** Identifiers with no capitals pass through unchanged. */
  lemma CamelToSnakeKeepsLowercase(s: string)
    requires NoUpper(s)
    ensures CamelToSnake(s) == s
  {
    if |s| > 0 {
      InnerPiecesKeepsLowercase(s[1..]);
      assert s == [s[0]] + s[1..];
    }
  }

  /** Normalising an already normalised key changes nothing. */
  lemma CamelToSnakeIdempotent(s: string)
    ensures CamelToSnake(CamelToSnake(s)) == CamelToSnake(s)
  {
    CamelToSnakeKeepsLowercase(CamelToSnake(s));
  }

  /** `s` is a fixed point exactly when it holds no ASCII capital. */
  lemma CamelToSnakeFixedPoint(s: string)
    ensures CamelToSnake(s) == s <==> NoUpper(s)
  {
    if NoUpper(s) {
      CamelToSnakeKeepsLowercase(s);
    }
  }

  lemma {:induction false} InnerPiecesAddNothing(s: string, ch: char)
    requires ch !in s && ch != '_' && !IsLower(ch)
    ensures ch !in InnerPieces(s)
  {
    if |s| > 0 {
      assert ch != s[0];
      assert ch !in s[1..];
      InnerPiecesAddNothing(s[1..], ch);
    }
  }

  /** The only characters normalisation can introduce are '_' and lower-case
      letters; any other character absent from the input stays absent. */
  lemma CamelToSnakeAddsNothing(s: string, ch: char)
    requires ch !in s && ch != '_' && !IsLower(ch)
    ensures ch !in CamelToSnake(s)
  {
    if |s| > 0 {
      assert ch != s[0];
      assert ch !in s[1..];
      InnerPiecesAddNothing(s[1..], ch);
    }
  }

  lemma {:induction false} InnerPiecesConcat(a: string, b: string)
    ensures InnerPieces(a + b) == InnerPieces(a) + InnerPieces(b)
  {
    if |a| > 0 {
      assert (a + b)[0] == a[0];
      assert (a + b)[1..] == a[1..] + b;
      InnerPiecesConcat(a[1..], b);
    } else {
      assert a + b == b;
    }
  }

  /** Unfolds `CamelToSnake` on an input split as first character and rest. */
  lemma CamelToSnakeCons(c: char, t: string)
    ensures CamelToSnake([c] + t) == Piece(c, true) + InnerPieces(t)
  {
    assert ([c] + t)[1..] == t;
  }

  /** Unfolds `InnerPieces` on an input split as first character and rest. */
  lemma InnerPiecesCons(c: char, t: string)
    ensures InnerPieces([c] + t) == Piece(c, false) + InnerPieces(t)
  {
    assert ([c] + t)[1..] == t;
  }

  /** Where character `i` of `s` lands in `InnerPieces(s)`: shifted right by
      the capitals before it; a capital lands as '_' then its lower-case
      letter, anything else as itself. */
  lemma {:induction false} InnerPiecesAt(s: string, i: nat)
    requires i < |s|
    ensures var r, p := InnerPieces(s), i + Capitals(s[..i]);
            && p < |r|
            && (IsUpper(s[i]) ==> p + 1 < |r| && r[p] == '_' && r[p + 1] == LowerChar(s[i]))
            && (!IsUpper(s[i]) ==> r[p] == s[i])
  {
    var head := Piece(s[0], false);
    assert InnerPieces(s) == head + InnerPieces(s[1..]);
    if i > 0 {
      assert s[..i][1..] == s[1..][..i - 1];
      assert Capitals(s[..i]) == |head| - 1 + Capitals(s[1..][..i - 1]);
      InnerPiecesAt(s[1..], i - 1);
    }
  }

  /** Where character `i > 0` of `s` lands in `CamelToSnake(s)`: shifted
      right by the capitals strictly between the first character and it; a
      capital becomes '_' followed by its lower-case letter, anything else
      is copied. Together with the length and first character this fixes
      the whole output. */
  lemma CamelToSnakePositions(s: string, i: nat)
    requires 0 < i < |s|
    ensures var r, p := CamelToSnake(s), i + Capitals(s[1..i]);
            && p < |r|
            && (IsUpper(s[i]) ==> p + 1 < |r| && r[p] == '_' && r[p + 1] == LowerChar(s[i]))
            && (!IsUpper(s[i]) ==> r[p] == s[i])
  {
    var inner := InnerPieces(s[1..]);
    assert |Piece(s[0], true)| == 1;
    assert CamelToSnake(s) == Piece(s[0], true) + inner;
    assert s[1..][..i - 1] == s[1..i];
    InnerPiecesAt(s[1..], i - 1);
    var q := i - 1 + Capitals(s[1..i]);
    assert CamelToSnake(s)[q + 1] == inner[q];
    if IsUpper(s[i]) {
      assert CamelToSnake(s)[q + 2] == inner[q + 1];
    }
  }

  /** Two capitalised words run together become two snake-case words. */
  lemma TwoWords(c: char, w: string, d: char, v: string)
    requires IsUpper(c) && IsUpper(d) && NoUpper(w) && NoUpper(v)
    ensures CamelToSnake([c] + (w + ([d] + v))) == [LowerChar(c)] + (w + (['_', LowerChar(d)] + v))
  {
    var dv := [d] + v;
    CamelToSnakeCons(c, w + dv);
    InnerPiecesConcat(w, dv);
    InnerPiecesKeepsLowercase(w);
    InnerPiecesCons(d, v);
    InnerPiecesKeepsLowercase(v);
  }

  /** "CustomerOrder" names the table "customer_order". */
  lemma CustomerOrderExample(s: string)
    requires s == "CustomerOrder"
    ensures CamelToSnake(s) == "customer_order"
  {
    var w, v := "ustomer", "rder";
    CustomerOrderSpelling(w, v);
    TwoWords('C', w, 'O', v);
  }

  /** Splits a string-literal equality into steps the solver checks cheaply. */
  lemma CustomerOrderSpelling(w: string, v: string)
    requires w == "ustomer" && v == "rder"
    ensures NoUpper(w) && NoUpper(v)
    ensures "CustomerOrder" == ['C'] + (w + (['O'] + v))
    ensures "customer_order" == [LowerChar('C')] + (w + (['_', LowerChar('O')] + v))
  {
  }

  lemma InnerCapitalExample()
    ensures CamelToSnake("iD") == "i_d"
  {
    var s := "iD";
    assert s[1..] == ['D'];
    assert ['D'][1..] == [];
  }
}
