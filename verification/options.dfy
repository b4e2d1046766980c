/**
 ffmpeg's command-line vocabulary as far as the converter uses it: an option is
 either a switch (a flag alone) or a flag followed by one value. The argument list
 the converter builds is the flattening of such options; `Parse` reads a flat list
 back the way ffmpeg does, and the round trip shows the flattening is unambiguous.
 */
module Options {
  import opened Wrappers

  datatype FfOption = Switch(flag: string) | Valued(flag: string, value: string)

  /** The flags the converter passes that take no value. */
  const Switches: set<string> := {"-hide_banner", "-n", "-y", "-vn"}

  /** A token in flag position: a '-' followed by a name. */
  predicate IsFlag(t: string)
  {
    |t| >= 2 && t[0] == '-'
  }

  /** An option ffmpeg reads back as itself: a switch is one of the value-less flags,
      and a valued option's flag is a flag that takes a value. */
  predicate WellFormed(o: FfOption)
  {
    match o
    case Switch(f) => f in Switches
    case Valued(f, _) => IsFlag(f) && f !in Switches
  }

  predicate AllWellFormed(opts: seq<FfOption>)
  {
    forall i :: 0 <= i < |opts| ==> WellFormed(opts[i])
  }

  /** The tokens one option contributes to the argument list. */
  function Render(o: FfOption): (r: seq<string>)
    ensures |r| == if o.Switch? then 1 else 2
    ensures r[0] == o.flag
  {
    match o
    case Switch(f) => [f]
    case Valued(f, v) => [f, v]
  }

  /** The flat argument list for a sequence of options, in order. */
  function Tokens(opts: seq<FfOption>): seq<string>
  {
    if |opts| == 0 then [] else Render(opts[0]) + Tokens(opts[1..])
  }

  lemma TokensCons(o: FfOption, rest: seq<FfOption>)
    ensures Tokens([o] + rest) == Render(o) + Tokens(rest)
  {
    assert ([o] + rest)[1..] == rest;
  }

  lemma {:induction false} TokensAppend(a: seq<FfOption>, b: seq<FfOption>)
    ensures Tokens(a + b) == Tokens(a) + Tokens(b)
    decreases |a|
  {
    if |a| == 0 {
      assert a + b == b;
    } else {
      assert (a + b)[1..] == a[1..] + b;
      TokensAppend(a[1..], b);
    }
  }

  /** Reads a flat argument list as options: a switch stands alone, any other flag
      takes the next token as its value; a stray value or a flag missing its value fails. */
  function Parse(tokens: seq<string>): (r: Option<seq<FfOption>>)
    ensures r.Some? ==> AllWellFormed(r.value) && Tokens(r.value) == tokens
    decreases |tokens|
  {
    if |tokens| == 0 then Some([])
    else if tokens[0] in Switches then
      match Parse(tokens[1..])
      case None => None
      case Some(rest) =>
        assert tokens == [tokens[0]] + tokens[1..];
        assert ([Switch(tokens[0])] + rest)[1..] == rest;
        Some([Switch(tokens[0])] + rest)
    else if IsFlag(tokens[0]) && |tokens| >= 2 then
      match Parse(tokens[2..])
      case None => None
      case Some(rest) =>
        assert tokens == [tokens[0], tokens[1]] + tokens[2..];
        assert ([Valued(tokens[0], tokens[1])] + rest)[1..] == rest;
        Some([Valued(tokens[0], tokens[1])] + rest)
    else None
  }

  /** Every list of well-formed options is read back exactly as it was rendered. */
  lemma {:induction false} ParseTokens(opts: seq<FfOption>)
    requires AllWellFormed(opts)
    ensures Parse(Tokens(opts)) == Some(opts)
    decreases |opts|
  {
    if |opts| > 0 {
      var t := Tokens(opts);
      assert WellFormed(opts[0]);
      ParseTokens(opts[1..]);
      match opts[0]
      case Switch(f) =>
        assert t[1..] == Tokens(opts[1..]);
        assert opts == [Switch(f)] + opts[1..];
      case Valued(f, v) =>
        assert t[2..] == Tokens(opts[1..]);
        assert opts == [Valued(f, v)] + opts[1..];
    }
  }

  /** The value an option gives to `flag`, if it is a valued option for that flag. */
  function ValueFor(o: FfOption, flag: string): seq<string>
  {
    if o.Valued? && o.flag == flag then [o.value] else []
  }

  /** The values given to `flag`, in the order they appear. */
  function Values(opts: seq<FfOption>, flag: string): (r: seq<string>)
    ensures |r| <= |opts|
    ensures forall v :: v in r <==> Valued(flag, v) in opts
  {
    if |opts| == 0 then []
    else
      assert opts == [opts[0]] + opts[1..];
      ValueFor(opts[0], flag) + Values(opts[1..], flag)
  }

  lemma ValuesCons(o: FfOption, rest: seq<FfOption>, flag: string)
    ensures Values([o] + rest, flag) == ValueFor(o, flag) + Values(rest, flag)
  {
    assert ([o] + rest)[1..] == rest;
  }

  /** A flag that no option carries has no values. */
  lemma ValuesAbsent(opts: seq<FfOption>, flag: string)
    requires forall o :: o in opts ==> o.flag != flag
    ensures Values(opts, flag) == []
  {
  }

  lemma {:induction false} ValuesAppend(a: seq<FfOption>, b: seq<FfOption>, flag: string)
    ensures Values(a + b, flag) == Values(a, flag) + Values(b, flag)
    decreases |a|
  {
    if |a| == 0 {
      assert a + b == b;
    } else {
      assert (a + b)[1..] == a[1..] + b;
      ValuesAppend(a[1..], b, flag);
    }
  }
}
