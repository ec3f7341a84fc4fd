/** The three text templates the code generator fills in, written out as
    concatenations, and the blank-line squeeze applied to generated classes. */
module Templates {
  import opened Strings

  /** BASE_CLASS: a class header, its attributes and its methods, each on
      its own line, with a newline before and after. */
  function BaseClass(name: string, parent: string, attributes: string, methods: string): (r: string)
    ensures |r| > 0 && r[0] == '\n' && r[|r| - 1] == '\n'
  {
    "\nclass " + name + "(" + parent + "):\n" + attributes + "\n" + methods + "\n"
  }

  /** `.replace("\n\n\n", "\n").replace("\n\n", "\n")` */
  function Squeeze(s: string): string
  {
    ReplaceAll(ReplaceAll(s, "\n\n\n", "\n"), "\n\n", "\n")
  }

  /** Text without a blank line is left alone by the squeeze. */
  lemma SqueezeNoBlankLine(s: string)
    requires !Contains(s, "\n\n")
    ensures Squeeze(s) == s
  {
    forall i | 0 <= i <= |s| - 3 ensures !OccursAt(s, "\n\n\n", i) {
      assert !OccursAt(s, "\n\n", i);
      assert s[i..i + 3][..2] == s[i..i + 2];
    }
    ReplaceAbsent(s, "\n\n\n", "\n");
    ReplaceAbsent(s, "\n\n", "\n");
  }

  /** LIMA_FUNCTION: one decorated client method. */
  function LimaFunctionText(verb: string, path: string, defaultResponseCode: string,
                            responseMapping: string, headers: string, defaultException: string,
                            functionName: string, functionParams: string, functionReturn: string): string
  {
    "\n    @lima_api." + verb + "(\n        path=\"" + path + "\",\n        default_response_code="
    + defaultResponseCode + ",\n        response_mapping=" + responseMapping + ",\n        headers="
    + headers + ",\n        default_exception=" + defaultException + ",\n    )\n    def "
    + functionName + "(\n        self,\n        " + functionParams + "\n    ) -> " + functionReturn
    + ":\n        ...\n"
  }

  /** BASE_PARAM: one keyword-only parameter declaration. */
  function BaseParam(name: string, paramType: string, field: string, kwargs: string): string
  {
    "\n        " + name + ": " + paramType + " = " + field + "(" + kwargs + "),"
  }
}
