/** Python exceptions as values: the class name the source reports as
    `type(e).__name__` and the text it reports as `str(e)`. */
module Errors {
  import opened Text

  datatype PyError =
    | Raised(typeName: string, message: string)
    | HttpException(status: nat, detail: string)
  {
    /** type(e).__name__ */
    function TypeName(): string
    {
      if HttpException? then "HTTPException" else typeName
    }

    /** str(e); an HTTPException prints as "<status>: <detail>". */
    function Str(): string
    {
      if HttpException? then NatToString(status) + ": " + detail else message
    }
  }
}
