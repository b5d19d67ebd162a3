/** Values that may be absent, and names compared without regard to case. */
module Options {
  datatype Option<+T> = None | Some(value: T)

  function FoldChar(c: char): char {
    if 'A' <= c <= 'Z' then (c as int + 32) as char else c
  }

  /** ASCII case folding. */
  function Fold(s: string): string {
    seq(|s|, i requires 0 <= i < |s| => FoldChar(s[i]))
  }
}
