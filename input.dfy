/**
 * The input decoder of the Wayland backend: the static keycode table of
 * keyboard_handle_key, the button-to-key mapping of pointer_handle_button,
 * the modifier mask of os_get_modifiers and the codepoint filter of the
 * text loop.  Keycode values are those of linux/input-event-codes.h.
 */
module Input {
  import opened Protocol

  /** The OS_Key values this backend produces. */
  datatype Key =
    | Null
    | A | B | C | D | E | F | G | H | I | J | K | L | M
    | N | O | P | Q | R | S | T | U | V | W | X | Y | Z
    | Num0 | Num1 | Num2 | Num3 | Num4 | Num5 | Num6 | Num7 | Num8 | Num9
    | F1 | F2 | F3 | F4 | F5 | F6 | F7 | F8 | F9 | F10 | F11 | F12
    | Up | Down | Left | Right | PageUp | End | Home | PageDown
    | Space | Return | Backspace | Tab | Esc
    | LeftMouseButton | MiddleMouseButton | RightMouseButton
  {
    /** The keys the keycode table can produce. */
    predicate IsKeyboardKey() {
      !Null? && !LeftMouseButton? && !MiddleMouseButton? && !RightMouseButton?
    }

    /** Escape, the digit row, backspace and tab. */
    predicate IsDigitRowKey() {
      Esc? || Num1? || Num2? || Num3? || Num4? || Num5? || Num6? || Num7? || Num8? ||
      Num9? || Num0? || Backspace? || Tab?
    }

    /** The top letter row and return. */
    predicate IsTopLetterRowKey() {
      Q? || W? || E? || R? || T? || Y? || U? || I? || O? || P? || Return?
    }

    /** The middle letter row. */
    predicate IsMiddleLetterRowKey() {
      A? || S? || D? || F? || G? || H? || J? || K? || L?
    }

    /** The bottom letter row and space. */
    predicate IsBottomLetterRowKey() {
      Z? || X? || C? || V? || B? || N? || M? || Space?
    }

    /** The arrow keys and the home, end and page keys. */
    predicate IsNavigationKey() {
      Home? || Up? || PageUp? || Left? || Right? || End? || Down? || PageDown?
    }
  }

  /**
   * The `switch(key)` of keyboard_handle_key, split by keycode range: the
   * escape and digit row (1..15), the top letter row with return (16..28),
   * the middle letter row (30..38), the bottom letter row with space
   * (44..57), the navigation block (102..109) and the function keys, which
   * the table writes as KEY_FN_F1..KEY_FN_F12 (0x1d2..0x1dd).  Every other
   * code gives Null.
   */
  function KeyFromCode(code: Uint32): (k: Key)
    ensures k == Null || k.IsKeyboardKey()
  {
    if code <= 15 then DigitRowKey(code)
    else if code <= 28 then TopLetterRowKey(code)
    else if code <= 43 then MiddleLetterRowKey(code)
    else if code <= 57 then BottomLetterRowKey(code)
    else if code <= 109 then NavigationKey(code)
    else FunctionKey(code)
  }

  function DigitRowKey(code: Uint32): (k: Key)
    ensures k == Null || k.IsDigitRowKey()
  {
    match code
    case 1 => Esc case 2 => Num1 case 3 => Num2 case 4 => Num3 case 5 => Num4
    case 6 => Num5 case 7 => Num6 case 8 => Num7 case 9 => Num8 case 10 => Num9
    case 11 => Num0 case 14 => Backspace case 15 => Tab
    case _ => Null
  }

  function TopLetterRowKey(code: Uint32): (k: Key)
    ensures k == Null || k.IsTopLetterRowKey()
  {
    match code
    case 16 => Q case 17 => W case 18 => E case 19 => R case 20 => T
    case 21 => Y case 22 => U case 23 => I case 24 => O case 25 => P
    case 28 => Return
    case _ => Null
  }

  function MiddleLetterRowKey(code: Uint32): (k: Key)
    ensures k == Null || k.IsMiddleLetterRowKey()
  {
    match code
    case 30 => A case 31 => S case 32 => D case 33 => F case 34 => G
    case 35 => H case 36 => J case 37 => K case 38 => L
    case _ => Null
  }

  function BottomLetterRowKey(code: Uint32): (k: Key)
    ensures k == Null || k.IsBottomLetterRowKey()
  {
    match code
    case 44 => Z case 45 => X case 46 => C case 47 => V case 48 => B
    case 49 => N case 50 => M case 57 => Space
    case _ => Null
  }

  function NavigationKey(code: Uint32): (k: Key)
    ensures k == Null || k.IsNavigationKey()
  {
    match code
    case 102 => Home case 103 => Up case 104 => PageUp case 105 => Left
    case 106 => Right case 107 => End case 108 => Down case 109 => PageDown
    case _ => Null
  }

  function FunctionKey(code: Uint32): Key {
    match code
    case 0x1d2 => F1 case 0x1d3 => F2 case 0x1d4 => F3 case 0x1d5 => F4
    case 0x1d6 => F5 case 0x1d7 => F6 case 0x1d8 => F7 case 0x1d9 => F8
    case 0x1da => F9 case 0x1db => F10 case 0x1dc => F11 case 0x1dd => F12
    case _ => Null
  }

  /** The keycode the table maps to a keyboard key: the inverse of KeyFromCode. */
  function CodeOfKey(k: Key): Uint32
    requires k.IsKeyboardKey()
  {
    match k
    case F1 => 0x1d2 case F2 => 0x1d3 case F3 => 0x1d4 case F4 => 0x1d5
    case F5 => 0x1d6 case F6 => 0x1d7 case F7 => 0x1d8 case F8 => 0x1d9
    case F9 => 0x1da case F10 => 0x1db case F11 => 0x1dc case F12 => 0x1dd
    case Esc => 1 case Num1 => 2 case Num2 => 3 case Num3 => 4 case Num4 => 5
    case Num5 => 6 case Num6 => 7 case Num7 => 8 case Num8 => 9 case Num9 => 10
    case Num0 => 11 case Backspace => 14 case Tab => 15 case Q => 16
    case W => 17 case E => 18 case R => 19 case T => 20 case Y => 21
    case U => 22 case I => 23 case O => 24 case P => 25 case Return => 28
    case A => 30 case S => 31 case D => 32 case F => 33 case G => 34
    case H => 35 case J => 36 case K => 37 case L => 38 case Z => 44
    case X => 45 case C => 46 case V => 47 case B => 48 case N => 49
    case M => 50 case Space => 57 case Home => 102 case Up => 103
    case PageUp => 104 case Left => 105 case Right => 106 case End => 107
    case Down => 108 case PageDown => 109
  }

  /** The table is one-to-one: every mapped code is the code of its key. */
  lemma KeyTableInjective(code: Uint32)
    requires KeyFromCode(code) != Null
    ensures KeyFromCode(code).IsKeyboardKey()
    ensures CodeOfKey(KeyFromCode(code)) == code
  {
    if code <= 15 {
      DigitRowInjective(code);
    } else if code <= 28 {
      TopLetterRowInjective(code);
    } else if code <= 43 {
      MiddleLetterRowInjective(code);
    } else if code <= 57 {
      BottomLetterRowInjective(code);
    } else if code <= 109 {
      NavigationInjective(code);
    } else {
      FunctionKeyInjective(code);
    }
  }

  lemma DigitRowInjective(code: Uint32)
    requires DigitRowKey(code) != Null
    ensures DigitRowKey(code).IsKeyboardKey() && CodeOfKey(DigitRowKey(code)) == code
  {
    if code <= 7 {
      LowDigitRowInjective(code);
    } else {
      HighDigitRowInjective(code);
    }
  }

  lemma LowDigitRowInjective(code: Uint32)
    requires DigitRowKey(code) != Null && code <= 7
    ensures DigitRowKey(code).IsKeyboardKey() && CodeOfKey(DigitRowKey(code)) == code
  {
    assert 1 <= code <= 7;
    if code == 1 { assert DigitRowKey(1) == Esc; }
    else if code == 2 { assert DigitRowKey(2) == Num1; }
    else if code == 3 { assert DigitRowKey(3) == Num2; }
    else if code == 4 { assert DigitRowKey(4) == Num3; }
    else if code == 5 { assert DigitRowKey(5) == Num4; }
    else if code == 6 { assert DigitRowKey(6) == Num5; }
    else if code == 7 { assert DigitRowKey(7) == Num6; }
  }

  lemma HighDigitRowInjective(code: Uint32)
    requires DigitRowKey(code) != Null && code > 7
    ensures DigitRowKey(code).IsKeyboardKey() && CodeOfKey(DigitRowKey(code)) == code
  {
    assert 8 <= code <= 15;
    if code == 8 { assert DigitRowKey(8) == Num7; }
    else if code == 9 { assert DigitRowKey(9) == Num8; }
    else if code == 10 { assert DigitRowKey(10) == Num9; }
    else if code == 11 { assert DigitRowKey(11) == Num0; }
    else if code == 14 { assert DigitRowKey(14) == Backspace; }
    else if code == 15 { assert DigitRowKey(15) == Tab; }
  }

  lemma TopLetterRowInjective(code: Uint32)
    requires TopLetterRowKey(code) != Null
    ensures TopLetterRowKey(code).IsKeyboardKey() && CodeOfKey(TopLetterRowKey(code)) == code
  {
    if code == 16 { assert TopLetterRowKey(16) == Q; }
    else if code == 17 { assert TopLetterRowKey(17) == W; }
    else if code == 18 { assert TopLetterRowKey(18) == E; }
    else if code == 19 { assert TopLetterRowKey(19) == R; }
    else if code == 20 { assert TopLetterRowKey(20) == T; }
    else if code == 21 { assert TopLetterRowKey(21) == Y; }
    else if code == 22 { assert TopLetterRowKey(22) == U; }
    else if code == 23 { assert TopLetterRowKey(23) == I; }
    else if code == 24 { assert TopLetterRowKey(24) == O; }
    else if code == 25 { assert TopLetterRowKey(25) == P; }
    else if code == 28 { assert TopLetterRowKey(28) == Return; }
  }

  lemma MiddleLetterRowInjective(code: Uint32)
    requires MiddleLetterRowKey(code) != Null
    ensures MiddleLetterRowKey(code).IsKeyboardKey() && CodeOfKey(MiddleLetterRowKey(code)) == code
  {
    if code == 30 { assert MiddleLetterRowKey(30) == A; }
    else if code == 31 { assert MiddleLetterRowKey(31) == S; }
    else if code == 32 { assert MiddleLetterRowKey(32) == D; }
    else if code == 33 { assert MiddleLetterRowKey(33) == F; }
    else if code == 34 { assert MiddleLetterRowKey(34) == G; }
    else if code == 35 { assert MiddleLetterRowKey(35) == H; }
    else if code == 36 { assert MiddleLetterRowKey(36) == J; }
    else if code == 37 { assert MiddleLetterRowKey(37) == K; }
    else if code == 38 { assert MiddleLetterRowKey(38) == L; }
  }

  lemma BottomLetterRowInjective(code: Uint32)
    requires BottomLetterRowKey(code) != Null
    ensures BottomLetterRowKey(code).IsKeyboardKey() && CodeOfKey(BottomLetterRowKey(code)) == code
  {
    if code == 44 { assert BottomLetterRowKey(44) == Z; }
    else if code == 45 { assert BottomLetterRowKey(45) == X; }
    else if code == 46 { assert BottomLetterRowKey(46) == C; }
    else if code == 47 { assert BottomLetterRowKey(47) == V; }
    else if code == 48 { assert BottomLetterRowKey(48) == B; }
    else if code == 49 { assert BottomLetterRowKey(49) == N; }
    else if code == 50 { assert BottomLetterRowKey(50) == M; }
    else if code == 57 { assert BottomLetterRowKey(57) == Space; }
  }

  lemma NavigationInjective(code: Uint32)
    requires NavigationKey(code) != Null
    ensures NavigationKey(code).IsKeyboardKey() && CodeOfKey(NavigationKey(code)) == code
  {
    if code == 102 { assert NavigationKey(102) == Home; }
    else if code == 103 { assert NavigationKey(103) == Up; }
    else if code == 104 { assert NavigationKey(104) == PageUp; }
    else if code == 105 { assert NavigationKey(105) == Left; }
    else if code == 106 { assert NavigationKey(106) == Right; }
    else if code == 107 { assert NavigationKey(107) == End; }
    else if code == 108 { assert NavigationKey(108) == Down; }
    else if code == 109 { assert NavigationKey(109) == PageDown; }
  }

  lemma FunctionKeyInjective(code: Uint32)
    requires FunctionKey(code) != Null
    ensures FunctionKey(code).IsKeyboardKey() && CodeOfKey(FunctionKey(code)) == code
  {
    if code <= 0x1d7 {
      LowFunctionKeyInjective(code);
    } else {
      HighFunctionKeyInjective(code);
    }
  }

  lemma LowFunctionKeyInjective(code: Uint32)
    requires FunctionKey(code) != Null && code <= 0x1d7
    ensures FunctionKey(code).IsKeyboardKey() && CodeOfKey(FunctionKey(code)) == code
  {
    if code == 0x1d2 { assert FunctionKey(0x1d2) == F1; }
    else if code == 0x1d3 { assert FunctionKey(0x1d3) == F2; }
    else if code == 0x1d4 { assert FunctionKey(0x1d4) == F3; }
    else if code == 0x1d5 { assert FunctionKey(0x1d5) == F4; }
    else if code == 0x1d6 { assert FunctionKey(0x1d6) == F5; }
    else if code == 0x1d7 { assert FunctionKey(0x1d7) == F6; }
  }

  lemma HighFunctionKeyInjective(code: Uint32)
    requires FunctionKey(code) != Null && code > 0x1d7
    ensures FunctionKey(code).IsKeyboardKey() && CodeOfKey(FunctionKey(code)) == code
  {
    assert 0x1d8 <= code <= 0x1dd;
    if code == 0x1d8 { assert FunctionKey(0x1d8) == F7; }
    else if code == 0x1d9 { assert FunctionKey(0x1d9) == F8; }
    else if code == 0x1da { assert FunctionKey(0x1da) == F9; }
    else if code == 0x1db { assert FunctionKey(0x1db) == F10; }
    else if code == 0x1dc { assert FunctionKey(0x1dc) == F11; }
    else if code == 0x1dd { assert FunctionKey(0x1dd) == F12; }
  }

  /** Every keyboard key appears in the table. */
  lemma KeyTableComplete(k: Key)
    requires k.IsKeyboardKey()
    ensures KeyFromCode(CodeOfKey(k)) == k
  {
    if k.IsDigitRowKey() {
      DigitRowComplete(k);
    } else if k.IsTopLetterRowKey() {
      TopLetterRowComplete(k);
    } else if k.IsMiddleLetterRowKey() {
      MiddleLetterRowComplete(k);
    } else if k.IsBottomLetterRowKey() {
      BottomLetterRowComplete(k);
    } else if k.IsNavigationKey() {
      NavigationComplete(k);
    } else {
      FunctionKeyComplete(k);
    }
  }

  lemma DigitRowComplete(k: Key)
    requires k.IsDigitRowKey()
    ensures k.IsKeyboardKey() && KeyFromCode(CodeOfKey(k)) == k
  {
    match k
    case Esc => assert KeyFromCode(CodeOfKey(Esc)) == Esc;
    case Num1 => assert KeyFromCode(CodeOfKey(Num1)) == Num1;
    case Num2 => assert KeyFromCode(CodeOfKey(Num2)) == Num2;
    case Num3 => assert KeyFromCode(CodeOfKey(Num3)) == Num3;
    case Num4 => assert KeyFromCode(CodeOfKey(Num4)) == Num4;
    case Num5 => assert KeyFromCode(CodeOfKey(Num5)) == Num5;
    case Num6 => assert KeyFromCode(CodeOfKey(Num6)) == Num6;
    case Num7 => assert KeyFromCode(CodeOfKey(Num7)) == Num7;
    case Num8 => assert KeyFromCode(CodeOfKey(Num8)) == Num8;
    case Num9 => assert KeyFromCode(CodeOfKey(Num9)) == Num9;
    case Num0 => assert KeyFromCode(CodeOfKey(Num0)) == Num0;
    case Backspace => assert KeyFromCode(CodeOfKey(Backspace)) == Backspace;
    case Tab => assert KeyFromCode(CodeOfKey(Tab)) == Tab;
    case _ =>
  }

  lemma TopLetterRowComplete(k: Key)
    requires k.IsTopLetterRowKey()
    ensures k.IsKeyboardKey() && KeyFromCode(CodeOfKey(k)) == k
  {
    match k
    case Q => assert KeyFromCode(CodeOfKey(Q)) == Q;
    case W => assert KeyFromCode(CodeOfKey(W)) == W;
    case E => assert KeyFromCode(CodeOfKey(E)) == E;
    case R => assert KeyFromCode(CodeOfKey(R)) == R;
    case T => assert KeyFromCode(CodeOfKey(T)) == T;
    case Y => assert KeyFromCode(CodeOfKey(Y)) == Y;
    case U => assert KeyFromCode(CodeOfKey(U)) == U;
    case I => assert KeyFromCode(CodeOfKey(I)) == I;
    case O => assert KeyFromCode(CodeOfKey(O)) == O;
    case P => assert KeyFromCode(CodeOfKey(P)) == P;
    case Return => assert KeyFromCode(CodeOfKey(Return)) == Return;
    case _ =>
  }

  lemma MiddleLetterRowComplete(k: Key)
    requires k.IsMiddleLetterRowKey()
    ensures k.IsKeyboardKey() && KeyFromCode(CodeOfKey(k)) == k
  {
    match k
    case A => assert KeyFromCode(CodeOfKey(A)) == A;
    case S => assert KeyFromCode(CodeOfKey(S)) == S;
    case D => assert KeyFromCode(CodeOfKey(D)) == D;
    case F => assert KeyFromCode(CodeOfKey(F)) == F;
    case G => assert KeyFromCode(CodeOfKey(G)) == G;
    case H => assert KeyFromCode(CodeOfKey(H)) == H;
    case J => assert KeyFromCode(CodeOfKey(J)) == J;
    case K => assert KeyFromCode(CodeOfKey(K)) == K;
    case L => assert KeyFromCode(CodeOfKey(L)) == L;
    case _ =>
  }

  lemma BottomLetterRowComplete(k: Key)
    requires k.IsBottomLetterRowKey()
    ensures k.IsKeyboardKey() && KeyFromCode(CodeOfKey(k)) == k
  {
    match k
    case Z => assert KeyFromCode(CodeOfKey(Z)) == Z;
    case X => assert KeyFromCode(CodeOfKey(X)) == X;
    case C => assert KeyFromCode(CodeOfKey(C)) == C;
    case V => assert KeyFromCode(CodeOfKey(V)) == V;
    case B => assert KeyFromCode(CodeOfKey(B)) == B;
    case N => assert KeyFromCode(CodeOfKey(N)) == N;
    case M => assert KeyFromCode(CodeOfKey(M)) == M;
    case Space => assert KeyFromCode(CodeOfKey(Space)) == Space;
    case _ =>
  }

  lemma NavigationComplete(k: Key)
    requires k.IsNavigationKey()
    ensures k.IsKeyboardKey() && KeyFromCode(CodeOfKey(k)) == k
  {
    match k
    case Home => assert KeyFromCode(CodeOfKey(Home)) == Home;
    case Up => assert KeyFromCode(CodeOfKey(Up)) == Up;
    case PageUp => assert KeyFromCode(CodeOfKey(PageUp)) == PageUp;
    case Left => assert KeyFromCode(CodeOfKey(Left)) == Left;
    case Right => assert KeyFromCode(CodeOfKey(Right)) == Right;
    case End => assert KeyFromCode(CodeOfKey(End)) == End;
    case Down => assert KeyFromCode(CodeOfKey(Down)) == Down;
    case PageDown => assert KeyFromCode(CodeOfKey(PageDown)) == PageDown;
    case _ =>
  }

  lemma FunctionKeyComplete(k: Key)
    requires k.IsKeyboardKey() && !k.IsDigitRowKey() && !k.IsTopLetterRowKey() && !k.IsMiddleLetterRowKey()
             && !k.IsBottomLetterRowKey() && !k.IsNavigationKey()
    ensures KeyFromCode(CodeOfKey(k)) == k
  {
    match k
    case F1 => assert KeyFromCode(CodeOfKey(F1)) == F1;
    case F2 => assert KeyFromCode(CodeOfKey(F2)) == F2;
    case F3 => assert KeyFromCode(CodeOfKey(F3)) == F3;
    case F4 => assert KeyFromCode(CodeOfKey(F4)) == F4;
    case F5 => assert KeyFromCode(CodeOfKey(F5)) == F5;
    case F6 => assert KeyFromCode(CodeOfKey(F6)) == F6;
    case F7 => assert KeyFromCode(CodeOfKey(F7)) == F7;
    case F8 => assert KeyFromCode(CodeOfKey(F8)) == F8;
    case F9 => assert KeyFromCode(CodeOfKey(F9)) == F9;
    case F10 => assert KeyFromCode(CodeOfKey(F10)) == F10;
    case F11 => assert KeyFromCode(CodeOfKey(F11)) == F11;
    case F12 => assert KeyFromCode(CodeOfKey(F12)) == F12;
    case _ =>
  }

  /** The standard KEY_F1..KEY_F12 codes (59..68, 87, 88) fall outside the table and map to Null. */
  lemma StandardFunctionKeysUnmapped(code: Uint32)
    requires 59 <= code <= 68 || code == 87 || code == 88
    ensures KeyFromCode(code) == Null
  {
  }

  /** The key of a pointer button in pointer_handle_button. */
  function ButtonKey(button: Uint32): (k: Key)
    ensures k == Null <==> button != BtnLeft && button != BtnMiddle && button != BtnRight
    ensures !k.IsKeyboardKey()
  {
    if button == BtnLeft then LeftMouseButton
    else if button == BtnMiddle then MiddleMouseButton
    else if button == BtnRight then RightMouseButton
    else Null
  }

  // OS_Modifiers bits (values of the platform-independent OS layer).
  const ModifierCtrl: bv32 := 1
  const ModifierShift: bv32 := 2
  const ModifierAlt: bv32 := 4

  /** os_get_modifiers: one bit per active Shift, Ctrl and Alt modifier, nothing else. */
  function ModifierMask(shift: bool, ctrl: bool, alt: bool): (m: bv32)
    ensures (m & ModifierShift != 0) == shift
    ensures (m & ModifierCtrl != 0) == ctrl
    ensures (m & ModifierAlt != 0) == alt
    ensures m & !(ModifierShift | ModifierCtrl | ModifierAlt) == 0
  {
    var m0: bv32 := 0;
    var m1 := if shift then m0 | ModifierShift else m0;
    var m2 := if ctrl then m1 | ModifierCtrl else m1;
    if alt then m2 | ModifierAlt else m2
  }

  /** One result of the UTF-8 decoder: the codepoint and how many bytes it consumed. */
  datatype Decode = Decode(codepoint: Uint32, inc: Uint32)

  /** The filter of the text loop: no NUL, no control character below 32 except tab. */
  predicate IsTextCodepoint(c: Uint32) {
    c != 0 && (c >= 32 || c == 9)
  }

  /**
   * The codepoints the text loop emits from byte offset i on, where
   * decoded[j] is the decoder's result for the bytes from offset j: it
   * keeps the codepoint if it passes the filter, stops on zero progress and
   * otherwise moves on by `inc` bytes while inside the buffer.
   */
  function TextCodepoints(decoded: seq<Decode>, i: nat): (cps: seq<Uint32>)
    ensures forall k :: 0 <= k < |cps| ==> IsTextCodepoint(cps[k])
    decreases |decoded| - i
  {
    if i >= |decoded| then []
    else
      var d := decoded[i];
      (if IsTextCodepoint(d.codepoint) then [d.codepoint] else [])
      + (if d.inc == 0 then [] else TextCodepoints(decoded, i + d.inc))
  }

  /** What the text loop emits for offset i: the codepoint if it passes the filter, else nothing. */
  function KeptAt(decoded: seq<Decode>, i: nat): seq<Uint32>
    requires i < |decoded|
  {
    if IsTextCodepoint(decoded[i].codepoint) then [decoded[i].codepoint] else []
  }

  /**
   * The text loop as it runs: `acc` is what it has emitted before reaching
   * offset i; each turn appends the codepoint at i if it passes the filter
   * and stops on zero progress or at the end of the buffer.
   */
  function TextRun(decoded: seq<Decode>, i: nat, acc: seq<Uint32>): seq<Uint32>
    decreases |decoded| - i
  {
    if i >= |decoded| then acc
    else if decoded[i].inc == 0 then acc + KeptAt(decoded, i)
    else TextRun(decoded, i + decoded[i].inc, acc + KeptAt(decoded, i))
  }

  /** Running the loop from i after `acc` emits `acc` followed by the codepoints from i. */
  lemma {:induction false} TextRunIsTextCodepoints(decoded: seq<Decode>, i: nat, acc: seq<Uint32>)
    ensures TextRun(decoded, i, acc) == acc + TextCodepoints(decoded, i)
    decreases |decoded| - i
  {
    if i >= |decoded| {
      AppendEmpty(acc);
    } else if decoded[i].inc == 0 {
      TextCodepointsUnfold(decoded, i);
      AppendEmpty(KeptAt(decoded, i));
    } else {
      TextCodepointsUnfold(decoded, i);
      TextRunIsTextCodepoints(decoded, i + decoded[i].inc, acc + KeptAt(decoded, i));
      AppendAssoc(acc, KeptAt(decoded, i), TextCodepoints(decoded, i + decoded[i].inc));
    }
  }

  /** One unfolding of TextCodepoints inside the buffer. */
  lemma TextCodepointsUnfold(decoded: seq<Decode>, i: nat)
    requires i < |decoded|
    ensures decoded[i].inc == 0 ==> TextCodepoints(decoded, i) == KeptAt(decoded, i) + []
    ensures decoded[i].inc != 0 ==> TextCodepoints(decoded, i) == KeptAt(decoded, i) + TextCodepoints(decoded, i + decoded[i].inc)
  {
  }

  lemma AppendEmpty(s: seq<Uint32>)
    ensures s + [] == s
  {
  }

  lemma AppendAssoc(a: seq<Uint32>, b: seq<Uint32>, c: seq<Uint32>)
    ensures (a + b) + c == a + (b + c)
  {
  }

  /**
   * The text loop of keyboard_handle_key: walks the buffer by the decoder's
   * increments and collects, in order, the codepoints it emits as Text events.
   */
  method TextLoop(decoded: seq<Decode>) returns (emitted: seq<Uint32>)
    ensures emitted == TextCodepoints(decoded, 0)
  {
    emitted := [];
    var n := |decoded|;
    var i: nat := 0;
    while i < n
      invariant TextRun(decoded, i, emitted) == TextRun(decoded, 0, [])
      decreases n - i
    {
      var inc := decoded[i].inc;
      emitted := emitted + KeptAt(decoded, i);
      if inc == 0 {
        break;
      }
      i := i + inc;
    }
    TextRunIsTextCodepoints(decoded, 0, []);
  }

  /** The loop emits at most one text event per byte of the buffer. */
  lemma {:induction false} TextCodepointsBound(decoded: seq<Decode>, i: nat)
    ensures |TextCodepoints(decoded, i)| <= if i <= |decoded| then |decoded| - i else 0
    decreases |decoded| - i
  {
    if i < |decoded| && decoded[i].inc != 0 {
      TextCodepointsBound(decoded, i + decoded[i].inc);
    }
  }

  /** A buffer of single-byte codepoints emits exactly the ones that pass the filter, in order. */
  lemma {:induction false} SingleByteText(decoded: seq<Decode>, i: nat)
    requires forall j :: 0 <= j < |decoded| ==> decoded[j].inc == 1
    ensures i <= |decoded| ==> TextCodepoints(decoded, i) == FilterText(decoded[i..])
    decreases |decoded| - i
  {
    if i < |decoded| {
      SingleByteText(decoded, i + 1);
      assert decoded[i..] == [decoded[i]] + decoded[i + 1..];
    }
  }

  /** The codepoints of a sequence of decoder results that pass the filter, in order. */
  function FilterText(ds: seq<Decode>): seq<Uint32> {
    if ds == [] then []
    else (if IsTextCodepoint(ds[0].codepoint) then [ds[0].codepoint] else []) + FilterText(ds[1..])
  }

  /** 'A' followed by a tab gives two text events, in that order; a lone escape gives none. */
  lemma TextScenarios()
    ensures TextCodepoints([Decode(0x41, 1), Decode(0x09, 1)], 0) == [0x41, 0x09]
    ensures TextCodepoints([Decode(0x1B, 1)], 0) == []
  {
  }
}
