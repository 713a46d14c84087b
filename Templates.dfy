/** Response templates with the `{website}` and `{email}` placeholders, and
    Python's `str.format(website=..., email=...)` that fills them in.

    A template is kept as a sequence of pieces (literal text and the two
    recognised fields) so that rendering is total; `Source` gives back the
    template text as the bot's source writes it, and `FormatSource` proves
    that `str.format` on that text yields exactly `Render`. */
module Templates {
  import opened Text

  datatype Piece = Lit(text: string) | WebsiteField | EmailField

  type Template = seq<Piece>

  datatype FormatError = UnknownField | SingleBrace

  /** The outcome of `str.format`: the formatted text, or the exception it raises. */
  datatype Formatted = Ok(text: string) | Err(error: FormatError)

  predicate BraceFree(s: string) { '{' !in s && '}' !in s }

  /** Every literal piece is free of braces, so the source text of the
      template has no braces other than its two kinds of fields. */
  predicate WellFormed(t: Template) {
    forall i :: 0 <= i < |t| ==> t[i].Lit? ==> BraceFree(t[i].text)
  }

  function PieceText(p: Piece, website: string, email: string): string {
    match p
    case Lit(s) => s
    case WebsiteField => website
    case EmailField => email
  }

  /** The rendered message: each field replaced by its configured value. */
  function Render(t: Template, website: string, email: string): string {
    if t == [] then [] else PieceText(t[0], website, email) + Render(t[1..], website, email)
  }

  /** The template as written in the source, with `{website}` and `{email}`. */
  function Source(t: Template): string {
    if t == [] then []
    else
      (match t[0]
       case Lit(s) => s
       case WebsiteField => "{website}"
       case EmailField => "{email}") + Source(t[1..])
  }

  function Prepend(p: string, f: Formatted): Formatted {
    match f
    case Ok(s) => Ok(p + s)
    case Err(e) => Err(e)
  }

  /** Python's `s.format(website=website, email=email)`: `{{` and `}}` are
      escaped braces, `{website}` and `{email}` are replaced, and a lone `}`
      raises ValueError. Every other replacement field is outside this model
      and ends in `UnknownField`; among them are fields that Python rejects
      (an unknown name, a positional index) and fields that it accepts
      (a conversion `{website!r}`, an index `{website[0]}`, a format
      specification `{website:>9}`), none of which the bot's templates use. */
  function Format(s: string, website: string, email: string): Formatted
    decreases |s|
  {
    if s == [] then Ok([])
    else if s[0] == '{' then
      if |s| >= 2 && s[1] == '{' then Prepend("{", Format(s[2..], website, email))
      else if IsPrefix("{website}", s) then Prepend(website, Format(s[9..], website, email))
      else if IsPrefix("{email}", s) then Prepend(email, Format(s[7..], website, email))
      else Err(UnknownField)
    else if s[0] == '}' then
      if |s| >= 2 && s[1] == '}' then Prepend("}", Format(s[2..], website, email))
      else Err(SingleBrace)
    else Prepend([s[0]], Format(s[1..], website, email))
  }

  /** Brace-free text passes through `str.format` unchanged. */
  lemma {:induction false} FormatLiteral(lit: string, rest: string, website: string, email: string)
    requires BraceFree(lit)
    ensures Format(lit + rest, website, email) == Prepend(lit, Format(rest, website, email))
    decreases |lit|
  {
    if lit != [] {
      var s := lit + rest;
      assert s[0] == lit[0];
      assert s[1..] == lit[1..] + rest;
      assert BraceFree(lit[1..]) by {
        assert forall c :: c in lit[1..] ==> c in lit;
      }
      FormatLiteral(lit[1..], rest, website, email);
      assert [lit[0]] + lit[1..] == lit;
      match Format(rest, website, email)
      case Ok(r) =>
        assert [lit[0]] + (lit[1..] + r) == lit + r;
      case Err(_) =>
    } else {
      assert lit + rest == rest;
      match Format(rest, website, email)
      case Ok(r) => assert lit + r == r;
      case Err(_) =>
    }
  }

  /** `str.format` applied to a well-formed template's source text succeeds
      and produces exactly the rendered message. */
  lemma {:induction false} FormatSource(t: Template, website: string, email: string)
    requires WellFormed(t)
    ensures Format(Source(t), website, email) == Ok(Render(t, website, email))
    decreases |t|
  {
    if t != [] {
      assert WellFormed(t[1..]) by {
        forall i | 0 <= i < |t[1..]| && t[1..][i].Lit? ensures BraceFree(t[1..][i].text) {
          assert t[1..][i] == t[i + 1];
        }
      }
      FormatSource(t[1..], website, email);
      var rest := Source(t[1..]);
      match t[0]
      case Lit(s) =>
        assert t[0].Lit?;
        FormatLiteral(s, rest, website, email);
      case WebsiteField =>
        var src := "{website}" + rest;
        assert src[0] == '{' && src[1] == 'w';
        assert src[..9] == "{website}";
        assert src[9..] == rest;
      case EmailField =>
        var src := "{email}" + rest;
        assert src[0] == '{' && src[1] == 'e';
        assert !IsPrefix("{website}", src) by {
          if |src| >= 9 { assert src[..9][1] != "{website}"[1]; }
        }
        assert src[..7] == "{email}";
        assert src[7..] == rest;
    }
  }

  /** No placeholder survives rendering: if the template is well-formed and
      the configured values contain no braces, the message has none either. */
  lemma {:induction false} RenderResolvesPlaceholders(t: Template, website: string, email: string)
    requires WellFormed(t) && BraceFree(website) && BraceFree(email)
    ensures BraceFree(Render(t, website, email))
    decreases |t|
  {
    if t != [] {
      assert WellFormed(t[1..]) by {
        forall i | 0 <= i < |t[1..]| && t[1..][i].Lit? ensures BraceFree(t[1..][i].text) {
          assert t[1..][i] == t[i + 1];
        }
      }
      RenderResolvesPlaceholders(t[1..], website, email);
      var head := PieceText(t[0], website, email);
      assert BraceFree(head) by {
        assert t[0].Lit? ==> BraceFree(t[0].text);
      }
      var tail := Render(t[1..], website, email);
      assert forall c :: c in head + tail ==> c in head || c in tail;
    }
  }
}
