/** Vocabulary shared by every part of the model. */
module Common {

  datatype Option<+T> = None | Some(value: T)

  datatype Result<+T, +E> = Ok(value: T) | Err(error: E)

  type Byte = b: int | 0 <= b < 256

  /** The error kinds of `doradus-types`. */
  datatype ErrorKind =
    | InvalidInput | NotFound | Conflict | Unsupported | Io | Protocol | Storage | Timeout | Closed

  datatype Network = Tcp | Udp

  /** A flow endpoint: a literal address or a domain name, always with a port. */
  datatype Endpoint =
    | Address(network: Network, ip: nat, port: nat)
    | Named(network: Network, host: string, port: nat)

  ghost function Elements<T>(s: seq<T>): set<T> {
    set x | x in s
  }

  lemma ConcatIsAssociative<T>(a: seq<T>, b: seq<T>, c: seq<T>)
    ensures a + (b + c) == a + b + c
  {
  }

  lemma SlicesJoin<T>(s: seq<T>, i: nat, j: nat, k: nat)
    requires i <= j <= k <= |s|
    ensures s[i..k] == s[i..j] + s[j..k]
  {
  }

  lemma ConcatSplits<T>(a: seq<T>, b: seq<T>)
    ensures (a + b)[..|a|] == a && (a + b)[|a|..] == b
  {
  }
}
