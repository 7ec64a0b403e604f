/** The part of the DNS proxy's configuration that the router adapters read
    and write. */
module ProxyConfig {

  /** The outcome of parsing a byte-size string such as "10MB". */
  datatype Parse = Bytes(n: int) | ParseError

  /** The proxy's byte-size parser, which is not part of this model. */
  type ByteParser = string -> Parse

  /** The parsed cache size; a parse error counts as zero. */
  function CacheBytes(p: Parse): int {
    if p.Bytes? then p.n else 0
  }

  /** The proxy's shared configuration, changed in place by `Configure`. */
  class Config {
    var listens: seq<string>
    var reportClientInfo: bool
    var cacheSize: string

    constructor (listens: seq<string>, reportClientInfo: bool, cacheSize: string)
      ensures this.listens == listens && this.reportClientInfo == reportClientInfo
      ensures this.cacheSize == cacheSize
    {
      this.listens := listens;
      this.reportClientInfo := reportClientInfo;
      this.cacheSize := cacheSize;
    }
  }
}
