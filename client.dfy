/**
 * Helpers of the Python client: the direction remap of a transition
 * action, the command lines it and the object setters send, and the
 * slicing that turns a raw BMP answer into an image without its alpha
 * channel. Numbers are whole numbers here and render as Python's str()
 * renders an int.
 */
module Client {
  import opened Wrappers
  import opened Tokens
  import opened Framing
  import Alias

  /* ---------- numbers as text ---------- */

  function DigitChar(d: nat): (c: char)
    requires d < 10
  {
    ('0' as int + d) as char
  }

  predicate IsDigit(c: char) {
    '0' <= c <= '9'
  }

  predicate AllDigits(s: string) {
    forall k :: 0 <= k < |s| ==> IsDigit(s[k])
  }

  /** Decimal digits of a natural number, most significant first, no leading zeros. */
  function NatText(n: nat): (s: string)
    ensures |s| > 0 && AllDigits(s)
    ensures |s| > 1 ==> s[0] != '0'
  {
    if n < 10 then [DigitChar(n)] else NatText(n / 10) + [DigitChar(n % 10)]
  }

  /** How Python renders an int: a minus sign for negative numbers, then the digits. */
  function IntText(n: int): (s: string)
    ensures PlainWord(s)
  {
    if n < 0 then "-" + NatText(-n) else NatText(n)
  }

  function DigitValue(c: char): nat
    requires IsDigit(c)
  {
    (c - '0') as nat
  }

  /** The number a string of digits denotes. */
  function ParseNat(s: string): nat
    requires AllDigits(s)
  {
    if s == [] then 0 else 10 * ParseNat(s[..|s| - 1]) + DigitValue(s[|s| - 1])
  }

  /** The number a rendered int denotes: an optional minus sign, then at least one digit. */
  function ParseInt(s: string): Option<int> {
    if |s| > 1 && s[0] == '-' && AllDigits(s[1..]) then Some(-(ParseNat(s[1..]) as int))
    else if |s| > 0 && AllDigits(s) then Some(ParseNat(s))
    else None
  }

  lemma {:induction false} ParseNatText(n: nat)
    ensures ParseNat(NatText(n)) == n
  {
    if n >= 10 {
      var s := NatText(n);
      var c := DigitChar(n % 10);
      ParseNatText(n / 10);
      assert s == NatText(n / 10) + [c];
      assert s[..|s| - 1] == NatText(n / 10);
      assert DigitValue(c) == n % 10;
    } else {
      assert DigitValue(DigitChar(n)) == n;
    }
  }

  lemma ParseIntOfNegative(t: string)
    requires |t| > 0 && AllDigits(t)
    ensures ParseInt("-" + t) == Some(-(ParseNat(t) as int))
  {
    assert ("-" + t)[1..] == t;
  }

  lemma ParseIntOfDigits(t: string)
    requires |t| > 0 && AllDigits(t)
    ensures ParseInt(t) == Some(ParseNat(t))
  {
    assert IsDigit(t[0]);
  }

  /** Rendering loses nothing: the number is read back from its text. */
  lemma IntTextRoundTrip(n: int)
    ensures ParseInt(IntText(n)) == Some(n)
  {
    if n < 0 {
      ParseNatText(-n);
      ParseIntOfNegative(NatText(-n));
    } else {
      ParseNatText(n);
      ParseIntOfDigits(NatText(n));
    }
  }

  /* ---------- the transition action ---------- */

  /**
   * The direction sent for a transition. With a negative speed the robot
   * backs up, so each direction is swapped with its opposite on the same
   * axis (0 with 1, 2 with 3); any other direction, or a speed of zero or
   * more, is sent as given.
   */
  function RemapDirection(speed: int, direction: int): (d: int)
    ensures speed >= 0 || direction < 0 || direction > 3 ==> d == direction
    ensures speed < 0 && 0 <= direction <= 3 ==> 0 <= d <= 3 && d != direction && d / 2 == direction / 2
  {
    if speed < 0 then
      if direction == 0 then 1
      else if direction == 1 then 0
      else if direction == 2 then 3
      else if direction == 3 then 2
      else direction
    else direction
  }

  /** Remapping twice with the same speed gives back the direction. */
  lemma RemapInvolution(speed: int, direction: int)
    ensures RemapDirection(speed, RemapDirection(speed, direction)) == direction
  {
  }

  /** The command of a transition: the speed and duration as given, the direction remapped. */
  function TransitionCommand(robot: string, speed: int, duration: int, direction: int): string {
    "vbp" + " " + robot + " " + "Move_Speed" + " " + IntText(speed) + " " + IntText(duration) + " "
      + IntText(RemapDirection(speed, direction))
  }

  /** The fixed words of the client's commands contain no whitespace. */
  lemma LiteralWords()
    ensures PlainWord("vbp") && PlainWord("Move_Speed")
    ensures Unspaced("location") && Unspaced("rotation") && Unspaced("scale")
  {
    forall k | 0 <= k < 3 ensures WordChar("vbp"[k]) { }
    forall k | 0 <= k < 10 ensures WordChar("Move_Speed"[k]) { }
    forall k | 0 <= k < 8 ensures WordChar("location"[k]) { }
    forall k | 0 <= k < 8 ensures WordChar("rotation"[k]) { }
    forall k | 0 <= k < 5 ensures WordChar("scale"[k]) { }
  }

  /** Putting one more word in front of a joined line adds it and one space. */
  lemma JoinSpaceCons(w: string, ws: seq<string>)
    requires ws != []
    ensures JoinSpace([w] + ws) == w + " " + JoinSpace(ws)
  {
    assert ([w] + ws)[1..] == ws;
    assert ws == [ws[0]] + ws[1..];
  }

  /**
   * apply_action_transition: the action unpacks into exactly speed,
   * duration and direction (Python raises otherwise; None here), and the
   * command carries the speed as given and the remapped direction.
   */
  function ApplyActionTransition(robot: string, action: seq<int>): (r: Option<string>)
    ensures r.Some? <==> |action| == 3
    ensures r.Some? && PlainWord(robot) ==>
      && Tokenize(r.value) == TransitionWords(robot, action[0], action[1], action[2])
      && ParseInt(Tokenize(r.value)[3]) == Some(action[0])
      && ParseInt(Tokenize(r.value)[5]) == Some(RemapDirection(action[0], action[2]))
  {
    if |action| != 3 then None
    else
      TransitionCommandParses(robot, action[0], action[1], action[2]);
      Some(TransitionCommand(robot, action[0], action[1], action[2]))
  }

  function TransitionWords(robot: string, speed: int, duration: int, direction: int): seq<string> {
    ["vbp", robot, "Move_Speed", IntText(speed), IntText(duration), IntText(RemapDirection(speed, direction))]
  }

  /**
   * The server reads a transition command as vbp with five arguments: the
   * robot, the Move_Speed function, and the three numbers, each of which
   * reads back as the value sent.
   */
  lemma TransitionCommandParses(robot: string, speed: int, duration: int, direction: int)
    ensures PlainWord(robot) ==>
      Tokenize(TransitionCommand(robot, speed, duration, direction)) == TransitionWords(robot, speed, duration, direction)
    ensures ParseInt(TransitionWords(robot, speed, duration, direction)[3]) == Some(speed)
    ensures ParseInt(TransitionWords(robot, speed, duration, direction)[4]) == Some(duration)
    ensures ParseInt(TransitionWords(robot, speed, duration, direction)[5]) == Some(RemapDirection(speed, direction))
  {
    var ws := TransitionWords(robot, speed, duration, direction);
    if PlainWord(robot) {
      TransitionLineIsJoin(robot, speed, duration, direction);
      TransitionWordsPlain(robot, speed, duration, direction);
      TokenizeJoinSpace(ws);
    }
    IntTextRoundTrip(speed);
    IntTextRoundTrip(duration);
    IntTextRoundTrip(RemapDirection(speed, direction));
  }

  lemma TransitionWordsPlain(robot: string, speed: int, duration: int, direction: int)
    requires PlainWord(robot)
    ensures AllPlain(TransitionWords(robot, speed, duration, direction))
  {
    LiteralWords();
  }

  lemma TransitionLineIsJoin(robot: string, speed: int, duration: int, direction: int)
    ensures TransitionCommand(robot, speed, duration, direction) == JoinSpace(TransitionWords(robot, speed, duration, direction))
  {
    JoinSix(TransitionWords(robot, speed, duration, direction));
  }

  /** Five arguments after vbp: the command table answers that shape with the capturing call handler. */
  lemma TransitionDispatch(robot: string, speed: int, duration: int, direction: int,
                           table: map<Alias.Signature, Alias.Registration>)
    ensures Alias.Find(Alias.WithAliases(table), "vbp", |TransitionWords(robot, speed, duration, direction)| - 1)
            == Some(Alias.Registration(Alias.VExecWithOutputHandler, Alias.BlueprintHelp))
  {
    Alias.WithAliasesLookup(table);
  }

  /* ---------- object setters ---------- */

  /** A name with no whitespace and no quote in it; it stays inside one plain word of the command line. */
  predicate Unspaced(s: string) {
    forall k :: 0 <= k < |s| ==> WordChar(s[k])
  }

  /**
   * vset /object/{name}/{property} a b c. The Python code unpacks exactly
   * three components and raises otherwise; the failure is None here.
   */
  function ObjectCommand(name: string, property: string, components: seq<int>): Option<string> {
    if |components| != 3 then None
    else Some("vset" + " " + ("/object/" + name + "/" + property) + " " + IntText(components[0]) + " "
              + IntText(components[1]) + " " + IntText(components[2]))
  }

  function ObjectWords(name: string, property: string, components: seq<int>): seq<string>
    requires |components| == 3
  {
    ["vset", "/object/" + name + "/" + property, IntText(components[0]), IntText(components[1]), IntText(components[2])]
  }

  /**
   * A setter's command exists exactly for three components; the server
   * reads it as vset, the object's property path and three numbers, each
   * of which reads back as the component sent.
   */
  lemma ObjectCommandParses(name: string, property: string, components: seq<int>)
    ensures ObjectCommand(name, property, components).Some? <==> |components| == 3
    ensures |components| == 3 && Unspaced(name) && Unspaced(property) ==>
      && Tokenize(ObjectCommand(name, property, components).value) == ObjectWords(name, property, components)
    ensures |components| == 3 ==>
      && ParseInt(ObjectWords(name, property, components)[2]) == Some(components[0])
      && ParseInt(ObjectWords(name, property, components)[3]) == Some(components[1])
      && ParseInt(ObjectWords(name, property, components)[4]) == Some(components[2])
  {
    if |components| == 3 {
      var ws := ObjectWords(name, property, components);
      if Unspaced(name) && Unspaced(property) {
        ObjectLineIsJoin(name, property, components);
        PathIsPlain(name, property);
        TokenizeJoinSpace(ws);
      }
      IntTextRoundTrip(components[0]);
      IntTextRoundTrip(components[1]);
      IntTextRoundTrip(components[2]);
    }
  }

  lemma ObjectLineIsJoin(name: string, property: string, components: seq<int>)
    requires |components| == 3
    ensures ObjectCommand(name, property, components).value == JoinSpace(ObjectWords(name, property, components))
  {
    var ws := ObjectWords(name, property, components);
    JoinFive(ws);
  }

  lemma PathIsPlain(name: string, property: string)
    requires Unspaced(name) && Unspaced(property)
    ensures PlainWord("/object/" + name + "/" + property)
  {
    var path := "/object/" + name + "/" + property;
    forall k | 0 <= k < |path| ensures WordChar(path[k]) {
      if k < 8 {
      } else if k < 8 + |name| {
        assert path[k] == name[k - 8];
      } else if k == 8 + |name| {
      } else {
        assert path[k] == property[k - 9 - |name|];
      }
    }
  }

  lemma JoinFive(ws: seq<string>)
    requires |ws| == 5
    ensures JoinSpace(ws) == ws[0] + " " + ws[1] + " " + ws[2] + " " + ws[3] + " " + ws[4]
  {
    JoinSpaceCons(ws[3], ws[4..]);
    JoinSpaceCons(ws[2], ws[3..]);
    JoinSpaceCons(ws[1], ws[2..]);
    JoinSpaceCons(ws[0], ws[1..]);
    assert JoinSpace(ws[4..]) == ws[4];
    assert ws == [ws[0]] + ws[1..];
    assert ws[1..] == [ws[1]] + ws[2..];
    assert ws[2..] == [ws[2]] + ws[3..];
    assert ws[3..] == [ws[3]] + ws[4..];
  }

  lemma JoinSix(ws: seq<string>)
    requires |ws| == 6
    ensures JoinSpace(ws) == ws[0] + " " + ws[1] + " " + ws[2] + " " + ws[3] + " " + ws[4] + " " + ws[5]
  {
    JoinFive(ws[1..]);
    JoinSpaceCons(ws[0], ws[1..]);
    assert ws == [ws[0]] + ws[1..];
  }

  /** set_location: vset /object/{name}/location x y z. */
  function SetLocation(loc: seq<int>, name: string): (r: Option<string>)
    ensures r.Some? <==> |loc| == 3
    ensures r.Some? && Unspaced(name) ==> Tokenize(r.value) == ObjectWords(name, "location", loc)
  {
    LiteralWords();
    ObjectCommandParses(name, "location", loc);
    ObjectCommand(name, "location", loc)
  }

  /** set_orientation: vset /object/{name}/rotation pitch yaw roll. */
  function SetOrientation(orientation: seq<int>, name: string): (r: Option<string>)
    ensures r.Some? <==> |orientation| == 3
    ensures r.Some? && Unspaced(name) ==> Tokenize(r.value) == ObjectWords(name, "rotation", orientation)
  {
    LiteralWords();
    ObjectCommandParses(name, "rotation", orientation);
    ObjectCommand(name, "rotation", orientation)
  }

  /** set_scale: vset /object/{name}/scale x y z. */
  function SetScale(scale: seq<int>, name: string): (r: Option<string>)
    ensures r.Some? <==> |scale| == 3
    ensures r.Some? && Unspaced(name) ==> Tokenize(r.value) == ObjectWords(name, "scale", scale)
  {
    LiteralWords();
    ObjectCommandParses(name, "scale", scale);
    ObjectCommand(name, "scale", scale)
  }

  /* ---------- BMP decoding ---------- */

  /** An image as rows of pixels, each pixel its channel bytes. */
  type Image = seq<seq<seq<byte>>>

  /** A row of width pixels of channel bytes each. */
  predicate RowShaped(row: seq<seq<byte>>, width: nat, channel: nat) {
    |row| == width && forall x :: 0 <= x < width ==> |row[x]| == channel
  }

  /** An image of height rows of width pixels of channel bytes each. */
  predicate Shaped(img: Image, width: nat, height: nat, channel: nat) {
    |img| == height && forall y :: 0 <= y < height ==> RowShaped(img[y], width, channel)
  }

  /** Python's s[:-1]: everything but the last element, nothing when empty. */
  function DropLast(p: seq<byte>): (r: seq<byte>)
    ensures |p| > 0 ==> r == p[..|p| - 1]
    ensures |p| == 0 ==> r == []
  {
    if p == [] then [] else p[..|p| - 1]
  }

  /** Python's s[-n:]: the last n elements; when n is 0 or exceeds the length, all of them. */
  function TailSlice(res: seq<byte>, n: nat): (t: seq<byte>)
    ensures 0 < n <= |res| ==> t == res[|res| - n..]
    ensures n == 0 || n > |res| ==> t == res
  {
    if n == 0 || n > |res| then res else res[|res| - n..]
  }

  /** One row of a C-order reshape, each pixel without its last channel. */
  function RowFrom(data: seq<byte>, width: nat, channel: nat): (row: seq<seq<byte>>)
    requires |data| == width * channel
    ensures |row| == width
    decreases width
  {
    if width == 0 then []
    else
      MulStep(width, channel);
      [DropLast(data[..channel])] + RowFrom(data[channel..], width - 1, channel)
  }

  /** A C-order reshape to (height, width, channel), each pixel without its last channel. */
  function RowsFrom(data: seq<byte>, width: nat, height: nat, channel: nat): (img: Image)
    requires |data| == height * (width * channel)
    ensures |img| == height
    decreases height
  {
    if height == 0 then []
    else
      MulStep(height, width * channel);
      [RowFrom(data[..width * channel], width, channel)] + RowsFrom(data[width * channel..], width, height - 1, channel)
  }

  /**
   * decode_bmp: keep the last height * width * channel bytes, reshape them
   * to rows of pixels, and drop each pixel's last (alpha) channel. The
   * reshape fails, here None, when the kept bytes are not exactly that many.
   */
  function DecodeBmp(res: seq<byte>, width: nat, height: nat, channel: nat): (r: Option<Image>)
    ensures r.Some? <==> 0 < height * width * channel <= |res| || (height * width * channel == 0 && res == [])
    ensures r.Some? ==> Shaped(r.value, width, height, if channel == 0 then 0 else channel - 1)
  {
    var n := height * width * channel;
    var tail := TailSlice(res, n);
    if |tail| != n then None
    else
      MulAssoc(height, width, channel);
      var img := RowsFrom(tail, width, height, channel);
      RowsShape(tail, width, height, channel);
      Some(img)
  }

  lemma {:induction false} RowShape(data: seq<byte>, width: nat, channel: nat)
    requires |data| == width * channel
    ensures RowShaped(RowFrom(data, width, channel), width, if channel == 0 then 0 else channel - 1)
    decreases width
  {
    if width > 0 {
      MulStep(width, channel);
      var row := RowFrom(data, width, channel);
      var rest := RowFrom(data[channel..], width - 1, channel);
      RowShape(data[channel..], width - 1, channel);
      assert row == [DropLast(data[..channel])] + rest;
      forall x | 0 <= x < width ensures |row[x]| == (if channel == 0 then 0 else channel - 1) {
        if x > 0 {
          assert row[x] == rest[x - 1];
        }
      }
    }
  }

  lemma {:induction false} RowsShape(data: seq<byte>, width: nat, height: nat, channel: nat)
    requires |data| == height * (width * channel)
    ensures Shaped(RowsFrom(data, width, height, channel), width, height, if channel == 0 then 0 else channel - 1)
    decreases height
  {
    if height > 0 {
      var k := width * channel;
      var a := if channel == 0 then 0 else channel - 1;
      SplitRows(data, height, k);
      var first := RowFrom(data[..k], width, channel);
      var rest := RowsFrom(data[k..], width, height - 1, channel);
      RowShape(data[..k], width, channel);
      RowsShape(data[k..], width, height - 1, channel);
      var img := [first] + rest;
      assert RowsFrom(data, width, height, channel) == img;
      forall y | 0 <= y < height ensures RowShaped(img[y], width, a) {
        if y > 0 {
          assert img[y] == rest[y - 1];
        }
      }
    }
  }

  /** The first row and the remaining rows of a buffer of height rows of k bytes. */
  lemma SplitRows(data: seq<byte>, height: nat, k: nat)
    requires height > 0 && |data| == height * k
    ensures |data[..k]| == k && |data[k..]| == (height - 1) * k
  {
    MulStep(height, k);
  }

  /** The bytes of a row of full pixels, in order. */
  function FlattenRow(row: seq<seq<byte>>): seq<byte> {
    if row == [] then [] else row[0] + FlattenRow(row[1..])
  }

  /** The raw bytes of an image in C order: row after row, pixel after pixel, channel after channel. */
  function Flatten(img: Image): seq<byte> {
    if img == [] then [] else FlattenRow(img[0]) + Flatten(img[1..])
  }

  /** The image with each pixel's last channel removed. */
  function WithoutAlpha(img: Image): (r: Image)
    ensures |r| == |img|
  {
    seq(|img|, y requires 0 <= y < |img| => seq(|img[y]|, x requires 0 <= x < |img[y]| => DropLast(img[y][x])))
  }

  lemma {:induction false} RowRoundTrip(row: seq<seq<byte>>, width: nat, channel: nat)
    requires |row| == width && forall x :: 0 <= x < width ==> |row[x]| == channel
    ensures |FlattenRow(row)| == width * channel
    ensures RowFrom(FlattenRow(row), width, channel) == seq(width, x requires 0 <= x < width => DropLast(row[x]))
    decreases width
  {
    if width > 0 {
      RowRoundTrip(row[1..], width - 1, channel);
      var data := FlattenRow(row);
      assert data == row[0] + FlattenRow(row[1..]);
      MulStep(width, channel);
      assert data[..channel] == row[0];
      assert data[channel..] == FlattenRow(row[1..]);
    }
  }

  lemma {:induction false} RowsRoundTrip(img: Image, width: nat, height: nat, channel: nat)
    requires Shaped(img, width, height, channel)
    ensures |Flatten(img)| == height * (width * channel)
    ensures RowsFrom(Flatten(img), width, height, channel) == WithoutAlpha(img)
    decreases height
  {
    if height > 0 {
      var k := width * channel;
      RowRoundTrip(img[0], width, channel);
      assert Shaped(img[1..], width, height - 1, channel) by {
        forall y | 0 <= y < height - 1 ensures |img[1..][y]| == width && forall x :: 0 <= x < width ==> |img[1..][y][x]| == channel {
          assert img[1..][y] == img[y + 1];
        }
      }
      RowsRoundTrip(img[1..], width, height - 1, channel);
      var data := Flatten(img);
      assert data == FlattenRow(img[0]) + Flatten(img[1..]);
      MulStep(height, k);
      assert data[..k] == FlattenRow(img[0]);
      assert data[k..] == Flatten(img[1..]);
      WithoutAlphaCons(img);
    }
  }

  lemma MulAssoc(a: nat, b: nat, c: nat)
    ensures a * b * c == a * (b * c)
  {
  }

  lemma MulStep(h: nat, k: nat)
    requires h > 0
    ensures h * k == k + (h - 1) * k
  {
  }

  lemma WithoutAlphaCons(img: Image)
    requires img != []
    ensures WithoutAlpha(img) == [seq(|img[0]|, x requires 0 <= x < |img[0]| => DropLast(img[0][x]))] + WithoutAlpha(img[1..])
  {
    var r := WithoutAlpha(img);
    var t := WithoutAlpha(img[1..]);
    assert forall y :: 0 <= y < |t| ==> r[y + 1] == t[y] by {
      forall y | 0 <= y < |t| ensures r[y + 1] == t[y] {
        assert img[1..][y] == img[y + 1];
      }
    }
  }

  /**
   * Round trip: whatever precedes the raw pixels (the BMP headers), decoding
   * gives back the image the bytes were laid out from, without its alpha
   * channel.
   */
  lemma DecodeBmpOfPixels(headers: seq<byte>, img: Image, width: nat, height: nat, channel: nat)
    requires Shaped(img, width, height, channel) && height * width * channel > 0
    ensures DecodeBmp(headers + Flatten(img), width, height, channel) == Some(WithoutAlpha(img))
  {
    RowsRoundTrip(img, width, height, channel);
    var body := Flatten(img);
    var res := headers + body;
    var n := height * width * channel;
    MulAssoc(height, width, channel);
    assert |body| == n;
    assert res[|res| - n..] == body;
    assert TailSlice(res, n) == body;
  }
}
