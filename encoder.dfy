/**
 The three JSON bodies the firmware builds with `snprintf` into fixed
 buffers: buttons (64 bytes), joystick (160 bytes) and temperature
 (64 bytes). The `%.3f` and `%.2f` renderings of the joystick coordinates
 and the temperature are inputs here; everything around them is modelled.
 */
module Encoder {
  import Text
  import Compass

  /** `!gpio_get(pin)`: the buttons pull up, so a pressed button reads low. */
  function Pressed(level: bool): (b: nat)
    ensures b <= 1
    ensures b == 1 <==> !level
  {
    if level then 0 else 1
  }

  /** The text `"{ \"btn1\": %d, \"btn2\": %d }"` formats to. */
  function ButtonsText(b1: nat, b2: nat): string {
    "{ \"btn1\": " + Text.Dec(b1) + ", \"btn2\": " + Text.Dec(b2) + " }"
  }

  /** `buttons_get_json(json, 64)` for the pin levels of the two buttons. */
  function ButtonsJson(level1: bool, level2: bool): (s: string)
    ensures |s| == 24
    ensures s[..10] == "{ \"btn1\": " && s[11..21] == ", \"btn2\": " && s[22..] == " }"
    ensures s[10] == (if level1 then '0' else '1')
    ensures s[21] == (if level2 then '0' else '1')
  {
    var d1, d2 := Text.Dec(Pressed(level1)), Text.Dec(Pressed(level2));
    var t := ButtonsText(Pressed(level1), Pressed(level2));
    assert |d1| == 1 && |d2| == 1;
    var open, mid, close := "{ \"btn1\": ", ", \"btn2\": ", " }";
    assert t == (open + d1) + (mid + d2) + close;
    Pieces(open + d1, mid + d2, close);
    Pieces(open, d1, []);
    Pieces(mid, d2, []);
    Text.Snprintf(t, 64)
  }

  /** The three pieces of a concatenation sit at their own offsets. */
  lemma Pieces(a: string, b: string, c: string)
    ensures (a + b + c)[..|a|] == a
    ensures (a + b + c)[|a|..|a| + |b|] == b
    ensures (a + b + c)[|a| + |b|..] == c
  {
  }

  /** The 64-byte buffer never truncates the button message. */
  lemma ButtonsNotTruncated(level1: bool, level2: bool)
    ensures ButtonsJson(level1, level2) == ButtonsText(Pressed(level1), Pressed(level2))
  {
  }

  /** A reader of the fixed button format: both flags, or nothing when the
      text is not exactly of that shape. */
  function ParseButtons(s: string): (r: Text.Option<(nat, nat)>)
    ensures r.Some? ==> r.value.0 <= 1 && r.value.1 <= 1
  {
    if |s| == 24 && s[..10] == "{ \"btn1\": " && s[11..21] == ", \"btn2\": " && s[22..] == " }"
       && s[10] in "01" && s[21] in "01"
    then Text.Some((Text.DigitValue(s[10]), Text.DigitValue(s[21])))
    else Text.None
  }

  /** Reading the message back yields the inverted pin levels. */
  lemma ButtonsRoundTrip(level1: bool, level2: bool)
    ensures ParseButtons(ButtonsJson(level1, level2)) == Text.Some((Pressed(level1), Pressed(level2)))
  {
  }

  /** Button 1 pressed (pin low) and button 2 released (pin high). */
  lemma ButtonsExample()
    ensures ButtonsJson(false, true) == "{ \"btn1\": 1, \"btn2\": 0 }"
  {
  }

  /** The text `"{ \"x\": %.3f, \"y\": %.3f, \"rosa\": \"%s\" }"` formats to,
      given the two renderings and the direction. */
  function JoystickText(xText: string, yText: string, d: Compass.Direction): string {
    "{ \"x\": " + xText + ", \"y\": " + yText + ", \"rosa\": \"" + Compass.Label(d) + "\" }"
  }

  /** The joystick message as left in its 160-byte buffer. */
  function JoystickJson(xText: string, yText: string, d: Compass.Direction): (s: string)
    ensures |s| <= 159
    ensures |xText| + |yText| <= 123 ==> s == JoystickText(xText, yText, d)
    ensures s <= JoystickText(xText, yText, d)
  {
    Text.Snprintf(JoystickText(xText, yText, d), 160)
  }

  /** The text `"{ \"temp\": %.2f }"` formats to. */
  function TempText(tempText: string): string {
    "{ \"temp\": " + tempText + " }"
  }

  /** The temperature message as left in its 64-byte buffer. */
  function TempJson(tempText: string): (s: string)
    ensures |s| <= 63
    ensures |tempText| <= 51 ==> s == TempText(tempText)
    ensures s <= TempText(tempText)
  {
    Text.Snprintf(TempText(tempText), 64)
  }

  /** A `%.3f` rendering of a value in [-1, 1] has at most six characters, so
      the joystick message is never cut and ends with the direction's label. */
  lemma JoystickNotTruncated(xText: string, yText: string, d: Compass.Direction)
    requires |xText| <= 6 && |yText| <= 6
    ensures JoystickJson(xText, yText, d) == JoystickText(xText, yText, d)
    ensures |JoystickJson(xText, yText, d)| <= 48
    ensures var s := JoystickJson(xText, yText, d);
      s[|s| - 3 - |Compass.Label(d)|..|s| - 3] == Compass.Label(d)
  {
    var s := JoystickText(xText, yText, d);
    var pre := "{ \"x\": " + xText + ", \"y\": " + yText + ", \"rosa\": \"";
    assert s == pre + Compass.Label(d) + "\" }";
  }
}
