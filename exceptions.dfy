/** The library's exception record and the errors the modelled operations
    raise. */
module Exceptions {
  import opened Strings
  import opened Values

  /** A `LimaException` or an instance of one of its subclasses (a mapped
      status class, a generated exception class); `className` is the
      runtime class name. */
  datatype LimaException = LimaException(className: string, detail: string, statusCode: int, content: seq<byte>)

  /** `cls(detail="Error de Lima", status_code=0, content=b"")` */
  function NewLimaException(detail: string := "Error de Lima", statusCode: int := 0,
                            content: seq<byte> := [], className: string := "LimaException"): (e: LimaException)
    ensures e.detail == detail && e.statusCode == statusCode && e.content == content
    ensures e.className == className
  {
    LimaException(className, detail, statusCode, content)
  }

  /** With no arguments the exception holds the library's default text, a
      zero status and empty content. */
  lemma DefaultException()
    ensures NewLimaException() == LimaException("LimaException", "Error de Lima", 0, [])
  {
  }

  /** `repr(e)`: `ClassName(detail=<repr of detail>, status_code=<status>)`. */
  function ExceptionRepr(e: LimaException): (r: string)
    ensures |r| >= |e.className| + 8 && r[..|e.className| + 8] == e.className + "(detail="
    ensures r[|r| - 1] == ')'
  {
    e.className + "(detail=" + PyStrRepr(e.detail) + ", status_code=" + IntToString(e.statusCode) + ")"
  }

  /** The content of the response never appears in `repr`. */
  lemma ReprIgnoresContent(e: LimaException, content: seq<byte>)
    ensures ExceptionRepr(e.(content := content)) == ExceptionRepr(e)
  {
  }

  /** A detail of printable ASCII with no quote or backslash is shown
      between single quotes exactly as given; the class shown is the
      runtime class, so a subclass prints as its own name
      (`CustomException(detail='Custom Exception', status_code=404)`). */
  lemma ReprOfPlainDetail(e: LimaException)
    requires forall i :: 0 <= i < |e.detail| ==>
      ' ' <= e.detail[i] && e.detail[i] as int < 127 && e.detail[i] != '\\' && e.detail[i] != '\''
    ensures ExceptionRepr(e)
         == e.className + "(detail='" + e.detail + "', status_code=" + IntToString(e.statusCode) + ")"
  {
    EscapeAllPlain(e.detail, '\'');
    assert '\'' !in e.detail by {
      forall i | 0 <= i < |e.detail| ensures e.detail[i] != '\'' {
      }
    }
    assert PyStrRepr(e.detail) == "'" + e.detail + "'";
    Regroup(e.className, e.detail, IntToString(e.statusCode));
  }

  lemma Regroup(c: string, d: string, n: string)
    ensures c + "(detail=" + ("'" + d + "'") + ", status_code=" + n + ")" == c + "(detail='" + d + "', status_code=" + n + ")"
  {
    assert "(detail=" + "'" == "(detail='";
    assert "'" + ", status_code=" == "', status_code=";
  }

  /** The exceptions raised by the modelled operations. */
  datatype Error =
    | ValueError(msg: string)
    | TypeError(msg: string)
    | KeyError(key: string)
    | IndexError
    | AttributeError(name: string)
    | NotImplementedError(msg: string)
    | RecursionError
    | Raised(exc: LimaException)
    /** A failure inside a pydantic validation or decode call. */
    | ValidationError(msg: string)

  datatype Result<+T> = Ok(value: T) | Err(error: Error)
}
