/** What a JSON tree means: objects are maps, and N is what is told apart in numbers. */
module JsonValues {
  import opened JsonText

  datatype Value<N> =
    | VNull | VFalse | VTrue
    | VNum(number: N)
    | VStr(bytes: Text)
    | VArr(elements: seq<Value<N>>)
    | VObj(fields: map<Text, Value<N>>)
}
