/**
  The OSC message pattern of Headitude/OSCSender.swift: the user's pattern is split on
  spaces, its first non-empty part is the OSC address, and every later part names one
  angle to send. The Tait-Bryan angles arrive already in degrees, and the network send is
  an out-parameter holding the datagram that would be handed to the OSC client.
 */
module Osc {
  import opened Wrappers
  import opened Quaternions

  // ---------------------------------------------------------------- splitting

  /** `components(separatedBy: " ")`: the pieces between spaces, empty pieces included. */
  function Split(s: string): (r: seq<string>)
    ensures |r| == Spaces(s) + 1
  {
    if |s| == 0 then [""]
    else
      var rest := Split(s[1..]);
      if s[0] == ' ' then [""] + rest
      else [[s[0]] + rest[0]] + rest[1..]
  }

  function Spaces(s: string): nat {
    if |s| == 0 then 0 else (if s[0] == ' ' then 1 else 0) + Spaces(s[1..])
  }

  /** The pieces joined back with single spaces. */
  function Join(parts: seq<string>): string
    requires |parts| >= 1
  {
    if |parts| == 1 then parts[0] else parts[0] + " " + Join(parts[1..])
  }

  /** No piece contains a space. */
  lemma {:induction false} SplitPieces(s: string)
    ensures forall i :: 0 <= i < |Split(s)| ==> ' ' !in Split(s)[i]
  {
    if |s| != 0 {
      SplitPieces(s[1..]);
    }
  }

  /** Joining the pieces gives back the pattern. */
  lemma {:induction false} JoinSplit(s: string)
    ensures Join(Split(s)) == s
  {
    if |s| != 0 {
      JoinSplit(s[1..]);
      var rest := Split(s[1..]);
      if s[0] != ' ' {
        if |rest| == 1 {
          assert Join(Split(s)) == [s[0]] + rest[0];
        } else {
          assert Join(Split(s)) == [s[0]] + rest[0] + " " + Join(rest[1..]);
        }
        assert s == [s[0]] + s[1..];
      }
    }
  }

  /** Splitting pieces that contain no space, joined with spaces, gives back the pieces. */
  lemma {:induction false} SplitJoin(parts: seq<string>)
    requires |parts| >= 1
    requires forall i :: 0 <= i < |parts| ==> ' ' !in parts[i]
    ensures Split(Join(parts)) == parts
  {
    if |parts| == 1 {
      SplitPiece(parts[0]);
    } else {
      SplitJoin(parts[1..]);
      SplitAppend(parts[0], Join(parts[1..]));
      SplitPiece(parts[0]);
      assert parts == [parts[0]] + parts[1..];
    }
  }

  /** A string without spaces is a single piece. */
  lemma {:induction false} SplitPiece(s: string)
    requires ' ' !in s
    ensures Split(s) == [s]
  {
    if |s| != 0 {
      SplitPiece(s[1..]);
      assert s == [s[0]] + s[1..];
    }
  }

  lemma SplitCons(c: char, t: string)
    ensures Split([c] + t)
         == if c == ' ' then [""] + Split(t) else [[c] + Split(t)[0]] + Split(t)[1..]
  {
    assert ([c] + t)[1..] == t;
  }

  /** A space splits the pattern into the pieces of either side. */
  lemma {:induction false} SplitAppend(a: string, b: string)
    ensures Split(a + " " + b) == Split(a) + Split(b)
  {
    if |a| == 0 {
      assert a + " " + b == [' '] + b;
      SplitCons(' ', b);
    } else {
      SplitAppend(a[1..], b);
      SplitAppendStep(a[0], a[1..], b);
      assert a == [a[0]] + a[1..];
      assert a + " " + b == [a[0]] + (a[1..] + " " + b);
    }
  }

  lemma SplitAppendStep(c: char, t: string, b: string)
    requires Split(t + " " + b) == Split(t) + Split(b)
    ensures Split([c] + (t + " " + b)) == Split([c] + t) + Split(b)
  {
    SplitCons(c, t + " " + b);
    SplitCons(c, t);
    var x, y := Split(t), Split(b);
    if c != ' ' {
      assert (x + y)[0] == x[0];
      ReplaceHead([c] + x[0], x, y);
    } else {
      ConsAppend([""], x, y);
    }
  }

  lemma ConsAppend<T>(h: seq<T>, x: seq<T>, y: seq<T>)
    ensures h + (x + y) == (h + x) + y
  {
  }

  lemma ReplaceHead<T>(h: T, x: seq<T>, y: seq<T>)
    requires |x| >= 1
    ensures [h] + (x + y)[1..] == ([h] + x[1..]) + y
  {
    assert (x + y)[1..] == x[1..] + y;
  }

  /** The non-empty pieces, in order: `filter { !$0.isEmpty }`. */
  function NonEmpty(pieces: seq<string>): (r: seq<string>)
    ensures |r| <= |pieces|
    ensures forall i :: 0 <= i < |r| ==> r[i] != "" && r[i] in pieces
  {
    if |pieces| == 0 then []
    else if pieces[0] == "" then NonEmpty(pieces[1..])
    else [pieces[0]] + NonEmpty(pieces[1..])
  }

  lemma {:induction false} NonEmptyAppend(a: seq<string>, b: seq<string>)
    ensures NonEmpty(a + b) == NonEmpty(a) + NonEmpty(b)
  {
    if |a| != 0 {
      NonEmptyAppend(a[1..], b);
      assert (a + b)[1..] == a[1..] + b;
      assert (a + b)[0] == a[0];
    } else {
      assert a + b == b;
    }
  }

  /** `protocolPartsFiltered`: the non-empty space-separated parts of the pattern. */
  function Parts(pattern: string): (r: seq<string>)
    ensures forall i :: 0 <= i < |r| ==> r[i] != "" && ' ' !in r[i]
  {
    SplitPieces(pattern);
    NonEmpty(Split(pattern))
  }

  /** Repeated separators never create tokens: two spaces act as one. */
  lemma RepeatedSpaces(a: string, b: string)
    ensures Parts(a + "  " + b) == Parts(a + " " + b)
  {
    assert a + "  " + b == a + " " + (" " + b);
    SplitAppend(a, " " + b);
    SplitAppend("", b);
    assert "" + " " + b == " " + b;
    SplitAppend(a, b);
    NonEmptyAppend(Split(a), Split(" " + b));
    NonEmptyAppend(Split(""), Split(b));
    NonEmptyAppend(Split(a), Split(b));
  }

  /** The pattern has an address exactly when it is not made of spaces alone. */
  lemma {:induction false} PartsEmpty(pattern: string)
    ensures Parts(pattern) == [] <==> forall i :: 0 <= i < |pattern| ==> pattern[i] == ' '
  {
    if |pattern| != 0 {
      PartsEmpty(pattern[1..]);
      var rest := Split(pattern[1..]);
      if pattern[0] != ' ' {
        assert Parts(pattern)[0] == [pattern[0]] + rest[0];
      } else {
        assert Split(pattern) == [""] + rest;
        assert Parts(pattern) == Parts(pattern[1..]);
        assert forall i :: 1 <= i < |pattern| ==> pattern[i] == pattern[1..][i - 1];
      }
    }
  }

  // ---------------------------------------------------------------- tokens

  datatype Angle = Yaw | Pitch | Roll

  /** A recognised token: an optional leading `-`, an angle name, and an optional `+`. */
  datatype Token = Token(negated: bool, angle: Angle, wrapped: bool)

  /** The angles of the current attitude, in degrees. */
  datatype TaitBryan = TaitBryan(yaw: real, pitch: real, roll: real)

  function AngleName(a: Angle): string {
    match a
    case Yaw => "yaw"
    case Pitch => "pitch"
    case Roll => "roll"
  }

  /** The spelling of a token in a pattern. */
  function FormatToken(t: Token): string {
    (if t.negated then "-" else "") + AngleName(t.angle) + (if t.wrapped then "+" else "")
  }

  /** The six names of the switch, after one leading `-` has been stripped. */
  function ParseName(name: string, negated: bool): Option<Token> {
    if name == "yaw" then Some(Token(negated, Yaw, false))
    else if name == "yaw+" then Some(Token(negated, Yaw, true))
    else if name == "pitch" then Some(Token(negated, Pitch, false))
    else if name == "pitch+" then Some(Token(negated, Pitch, true))
    else if name == "roll" then Some(Token(negated, Roll, false))
    else if name == "roll+" then Some(Token(negated, Roll, true))
    else None
  }

  function ParseToken(part: string): Option<Token> {
    if |part| > 0 && part[0] == '-' then ParseName(part[1..], true)
    else ParseName(part, false)
  }

  lemma ParseFormat(t: Token)
    ensures ParseToken(FormatToken(t)) == Some(t)
  {
    var name := AngleName(t.angle) + (if t.wrapped then "+" else "");
    ParseNameFormat(t);
    if t.negated {
      assert FormatToken(t) == "-" + name;
      assert FormatToken(t)[1..] == name;
    } else {
      assert FormatToken(t) == name;
      assert name[0] != '-';
    }
  }

  lemma ParseNameFormat(t: Token)
    ensures ParseName(AngleName(t.angle) + (if t.wrapped then "+" else ""), t.negated) == Some(t)
  {
    match t.angle
    case Yaw =>
      assert "yaw" + "" == "yaw";
    case Pitch =>
      assert "pitch" + "" == "pitch";
    case Roll =>
      assert "roll" + "" == "roll";
      assert "roll" + "+" == "roll+";
      assert "roll"[0] != "yaw+"[0] && "roll+"[0] != "pitch"[0];
  }

  /** Exactly the twelve spellings of FormatToken are accepted. */
  lemma FormatParse(part: string)
    requires ParseToken(part).Some?
    ensures FormatToken(ParseToken(part).value) == part
  {
    if |part| > 0 && part[0] == '-' {
      assert part == "-" + part[1..];
    }
  }

  /** Only one leading `-` is stripped. */
  lemma DoubleDash()
    ensures ParseToken("--yaw") == None
    ensures ParseToken("-yaw") == Some(Token(true, Yaw, false))
  {
    assert "--yaw"[1..] == "-yaw";
    assert "-yaw"[1..] == "yaw";
  }

  /** A `+` spelling moves a negative angle up by a full turn. */
  function Wrap360(value: real): (r: real)
    ensures value < 0.0 ==> r == value + 360.0
    ensures 0.0 <= value ==> r == value
    ensures -360.0 <= value ==> 0.0 <= r
  {
    if value < 0.0 then value + 360.0 else value
  }

  /** The value one token contributes, negation applied after wrapping. */
  function TokenValue(t: Token, angles: TaitBryan): (r: real)
    ensures var a := match t.angle case Yaw => angles.yaw case Pitch => angles.pitch case Roll => angles.roll;
      var v := if t.wrapped then Wrap360(a) else a;
      r == if t.negated then -v else v
    ensures var a := match t.angle case Yaw => angles.yaw case Pitch => angles.pitch case Roll => angles.roll;
      t.wrapped && -180.0 <= a <= 180.0 ==> 0.0 <= (if t.negated then -r else r) < 360.0
  {
    var value := match t.angle
      case Yaw => angles.yaw
      case Pitch => angles.pitch
      case Roll => angles.roll;
    var factor := if t.negated then -1.0 else 1.0;
    factor * (if t.wrapped then Wrap360(value) else value)
  }

  /** One loop iteration: strip a dash, switch on the name, scale by the sign. */
  function Evaluate(part: string, angles: TaitBryan): Option<real> {
    match ParseToken(part)
    case None => None
    case Some(t) => Some(TokenValue(t, angles))
  }

  /** The values of all tokens, or `None` as soon as one is not recognised. */
  function Interpret(tokens: seq<string>, angles: TaitBryan): (r: Option<seq<real>>)
    ensures r.Some? <==> forall i :: 0 <= i < |tokens| ==> ParseToken(tokens[i]).Some?
    ensures r.Some? ==> (|r.value| == |tokens|
      && forall i :: 0 <= i < |tokens| ==> Evaluate(tokens[i], angles) == Some(r.value[i]))
  {
    if |tokens| == 0 then Some([])
    else
      match (Evaluate(tokens[0], angles), Interpret(tokens[1..], angles))
      case (Some(v), Some(vs)) => Some([v] + vs)
      case _ => None
  }

  lemma ExampleValues()
    ensures Interpret(["yaw", "-pitch", "roll+"], TaitBryan(10.0, 20.0, -5.0)) == Some([10.0, -20.0, 355.0])
    ensures Interpret(["yaw", "foo", "roll"], TaitBryan(10.0, 20.0, -5.0)) == None
  {
    var angles := TaitBryan(10.0, 20.0, -5.0);
    assert "-pitch"[1..] == "pitch";
    assert Evaluate("yaw", angles) == Some(10.0);
    assert Evaluate("-pitch", angles) == Some(-20.0);
    assert Evaluate("roll+", angles) == Some(355.0);
    var tokens := ["yaw", "-pitch", "roll+"];
    var r := Interpret(tokens, angles);
    assert ParseToken(tokens[0]).Some? && ParseToken(tokens[1]).Some? && ParseToken(tokens[2]).Some?;
    assert r.Some?;
    assert Evaluate(tokens[0], angles) == Some(r.value[0]);
    assert Evaluate(tokens[1], angles) == Some(r.value[1]);
    assert Evaluate(tokens[2], angles) == Some(r.value[2]);
    assert r.value == [10.0, -20.0, 355.0];
    assert ParseToken("foo") == None;
  }

  lemma {:induction false} NonEmptyKeeps(pieces: seq<string>)
    requires forall i :: 0 <= i < |pieces| ==> pieces[i] != ""
    ensures NonEmpty(pieces) == pieces
  {
    if |pieces| != 0 {
      NonEmptyKeeps(pieces[1..]);
      assert pieces == [pieces[0]] + pieces[1..];
    }
  }

  /** Non-empty parts without spaces, joined by single spaces, are parsed back as they were. */
  lemma PartsJoin(parts: seq<string>)
    requires |parts| >= 1
    requires forall i :: 0 <= i < |parts| ==> parts[i] != "" && ' ' !in parts[i]
    ensures Parts(Join(parts)) == parts
  {
    SplitJoin(parts);
    NonEmptyKeeps(parts);
  }

  /** Its three tokens send yaw, pitch and roll unchanged. */
  lemma DefaultValues(angles: TaitBryan)
    ensures Interpret(["yaw", "pitch", "roll"], angles) == Some([angles.yaw, angles.pitch, angles.roll])
  {
    var tokens := ["yaw", "pitch", "roll"];
    var r := Interpret(tokens, angles);
    assert ParseToken(tokens[0]).Some? && ParseToken(tokens[1]).Some? && ParseToken(tokens[2]).Some?;
    assert Evaluate(tokens[0], angles) == Some(r.value[0]);
    assert Evaluate(tokens[1], angles) == Some(r.value[1]);
    assert Evaluate(tokens[2], angles) == Some(r.value[2]);
    assert r.value == [angles.yaw, angles.pitch, angles.roll];
  }

  /** The default pattern: address "/SceneRotator/ypr", then yaw, pitch and roll unchanged. */
  lemma DefaultPattern(angles: TaitBryan)
    ensures Parts("/SceneRotator/ypr yaw pitch roll") == ["/SceneRotator/ypr", "yaw", "pitch", "roll"]
    ensures Interpret(Parts("/SceneRotator/ypr yaw pitch roll")[1..], angles)
         == Some([angles.yaw, angles.pitch, angles.roll])
  {
    var parts := ["/SceneRotator/ypr", "yaw", "pitch", "roll"];
    assert Join(parts) == "/SceneRotator/ypr yaw pitch roll";
    PartsJoin(parts);
    assert parts[1..] == ["yaw", "pitch", "roll"];
    DefaultValues(angles);
  }

  /** A pattern with a negated and a wrapped token. */
  lemma PatternValues()
    ensures Parts("/test/ypr yaw -pitch roll+") == ["/test/ypr", "yaw", "-pitch", "roll+"]
    ensures Interpret(Parts("/test/ypr yaw -pitch roll+")[1..], TaitBryan(10.0, 20.0, -5.0))
         == Some([10.0, -20.0, 355.0])
  {
    var parts := ["/test/ypr", "yaw", "-pitch", "roll+"];
    assert Join(parts) == "/test/ypr yaw -pitch roll+";
    PartsJoin(parts);
    assert parts[1..] == ["yaw", "-pitch", "roll+"];
    ExampleValues();
  }

  // ---------------------------------------------------------------- the sender

  newtype Port = p: int | 0 <= p < 0x1_0000

  /** What is handed to `client.send`: the message and its destination. */
  datatype Datagram = Datagram(address: string, values: seq<real>, host: string, port: Port)

  class OscSender {
    var quaternion: Quaternion
    var oscProtocol: string
    var ip: string
    var port: Port
    var protocolValid: bool

    constructor()
      ensures quaternion == Zero && oscProtocol == "/SceneRotator/ypr yaw pitch roll"
      ensures ip == "localhost" && port == 3001 && protocolValid
    {
      quaternion := Zero;
      oscProtocol := "/SceneRotator/ypr yaw pitch roll";
      ip := "localhost";
      port := 3001;
      protocolValid := true;
    }

    /**
      Remaps and stores the attitude, then evaluates the pattern. `angles` are the Tait-Bryan
      angles of the remapped attitude in degrees. A datagram comes back exactly when every
      token is recognised; it carries one value per token, in order.
     */
    method SetQuaternion(q: Quaternion, angles: TaitBryan) returns (sent: Option<Datagram>)
      requires |Parts(oscProtocol)| >= 1
      modifies this`quaternion, this`protocolValid
      ensures quaternion == ToAmbisonic(q)
      ensures protocolValid <==> Interpret(Parts(oscProtocol)[1..], angles).Some?
      ensures sent.Some? <==> protocolValid
      ensures sent.Some? ==>
        sent.value == Datagram(Parts(oscProtocol)[0], Interpret(Parts(oscProtocol)[1..], angles).value, ip, port)
    {
      quaternion := ToAmbisonic(q);
      var parts := Parts(oscProtocol);
      var address := parts[0];
      var values: seq<real> := [];
      var i := 1;
      while i < |parts|
        invariant 1 <= i <= |parts|
        invariant |values| == i - 1
        invariant forall j :: 1 <= j < i ==> Evaluate(parts[j], angles) == Some(values[j - 1])
      {
        var value := Evaluate(parts[i], angles);
        if value.None? {
          protocolValid := false;
          assert ParseToken(parts[1..][i - 1]).None?;
          return None;
        }
        values := values + [value.value];
        i := i + 1;
      }
      protocolValid := true;
      var expected := Interpret(parts[1..], angles);
      assert expected.Some? by {
        forall j | 0 <= j < |parts[1..]|
          ensures ParseToken(parts[1..][j]).Some?
        {
          assert Evaluate(parts[j + 1], angles).Some?;
        }
      }
      assert expected.value == values by {
        forall j | 0 <= j < |values|
          ensures expected.value[j] == values[j]
        {
          assert Evaluate(parts[j + 1], angles) == Some(values[j]);
        }
      }
      sent := Some(Datagram(address, values, ip, port));
    }
  }
}
