/** Protobuf records, and the encodings they travel in. */
module Records {
  import opened Basics

  type Bytes = string

  datatype SpaceRecord = SpaceRecord(id: string, name: string, isPublic: bool, autoJoinRooms: bool,
                                     createdAtMs: int, updatedAtMs: int, deleted: bool, deletedAtMs: int)

  datatype RoomRecord = RoomRecord(id: string, name: string, parentSpaceId: string,
                                   createdAtMs: int, updatedAtMs: int, deleted: bool, deletedAtMs: int)

  datatype Manifest = Manifest(spaceIds: seq<string>, roomIds: seq<string>)

  datatype Role = Unspecified | UserSelf | UserPeer

  datatype MessageState = Pending | Complete | Error

  datatype Message = Message(id: string, roomTopic: string, role: Role, state: MessageState, text: string,
                             timestamp: int, sender: string)

  /** A record's serialisation and its partial inverse. */
  datatype Wire<!T> = Wire(encode: T -> Bytes, decode: Bytes -> Option<T>)

  ghost predicate Lawful<T(!new)>(w: Wire<T>) {
    forall v :: w.decode(w.encode(v)) == Some(v)
  }

  /** The injected crypto seam: Plain when it is disabled or a callable is missing.  Encryption draws
      a nonce and may fail. */
  datatype Crypto =
    | Plain
    | Cipher(encrypt: (nat, string, Bytes) -> Option<Bytes>, decrypt: (string, Bytes) -> Option<Bytes>)

  ghost predicate CryptoLawful(c: Crypto) {
    c.Cipher? ==>
      forall nonce, topic, plain :: c.encrypt(nonce, topic, plain).Some? ==>
        c.decrypt(topic, c.encrypt(nonce, topic, plain).value) == Some(plain)
  }
}
