/**
 * Which characters the code page 866 codec can encode. A launch script is
 * written in this code page, so a command line with any other character
 * makes the write fail.
 */
module Encodings {
  /** The characters of code page 866: ASCII, the Russian alphabet, box drawing and sixteen others. */
  predicate Cp866Char(c: char) {
    c < '\U{80}'
    || ('\U{0410}' <= c <= '\U{044F}')
    || c in {'\U{0401}', '\U{0451}', '\U{0404}', '\U{0454}', '\U{0407}', '\U{0457}', '\U{040E}', '\U{045E}',
             '\U{00B0}', '\U{2219}', '\U{00B7}', '\U{221A}', '\U{2116}', '\U{00A4}', '\U{25A0}', '\U{00A0}'}
    || c in {'\U{2591}', '\U{2592}', '\U{2593}', '\U{2502}', '\U{2524}', '\U{2561}', '\U{2562}', '\U{2556}',
             '\U{2555}', '\U{2563}', '\U{2551}', '\U{2557}', '\U{255D}', '\U{255C}', '\U{255B}', '\U{2510}',
             '\U{2514}', '\U{2534}', '\U{252C}', '\U{251C}', '\U{2500}', '\U{253C}', '\U{255E}', '\U{255F}',
             '\U{255A}', '\U{2554}', '\U{2569}', '\U{2566}', '\U{2560}', '\U{2550}', '\U{256C}', '\U{2567}',
             '\U{2568}', '\U{2564}', '\U{2565}', '\U{2559}', '\U{2558}', '\U{2552}', '\U{2553}', '\U{256B}',
             '\U{256A}', '\U{2518}', '\U{250C}', '\U{2588}', '\U{2584}', '\U{258C}', '\U{2590}', '\U{2580}'}
  }

  /** Every character of `s` can be encoded in code page 866. */
  predicate Cp866Encodable(s: string) {
    forall i :: 0 <= i < |s| ==> Cp866Char(s[i])
  }

  /** A concatenation is encodable exactly when both parts are. */
  lemma Cp866Concat(a: string, b: string)
    ensures Cp866Encodable(a + b) <==> Cp866Encodable(a) && Cp866Encodable(b)
  {
    if Cp866Encodable(a + b) {
      assert forall i :: 0 <= i < |a| ==> (a + b)[i] == a[i];
      assert forall i :: 0 <= i < |b| ==> (a + b)[|a| + i] == b[i];
    }
  }
}
