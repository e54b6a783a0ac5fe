/**
 * Stand-in for the `str_format` helper the column class calls: each
 * placeholder `{d}` (one digit d naming an argument that exists) is replaced
 * by that argument; every other character is copied. The real helper lives in
 * a file that is not part of this model, so nothing is proved about its output.
 */
module Format {

  function StrFormat(format: string, args: seq<string>): string
    decreases |format|
  {
    if |format| >= 3 && format[0] == '{' && '0' <= format[1] <= '9' && format[2] == '}'
       && format[1] as int - '0' as int < |args|
    then args[format[1] as int - '0' as int] + StrFormat(format[3..], args)
    else if format == [] then []
    else [format[0]] + StrFormat(format[1..], args)
  }
}
