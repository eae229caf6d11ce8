/** Message and MetaMessage: the two ends of a frame as objects over a shared buffer. */
module Messages {
  import opened Wire
  import opened BufferPool

  /** An outgoing message. Its header is computed once, when the message is made. */
  class Message {
    var header: Header
    const payload: Buffer

    /** The header still describes the payload: nobody has resized the buffer since. */
    predicate Valid()
      reads this, payload
    {
      payload.Sized() && header == HeaderOf(Frame(header.kind, payload.Content()))
    }

    ghost function Meaning(): Frame
      reads this, payload
      requires payload.Sized()
    {
      Frame(header.kind, payload.Content())
    }

    constructor (kind: UInt16, payload: Buffer)
      requires payload.Sized()
      ensures Valid() && this.payload == payload && header.kind == kind
      ensures Meaning() == Frame(kind, payload.Content())
    {
      this.payload := payload;
      header := Header(0, 0, 0, kind);
      new;
      CountHeaderCRC();
      CountPayloadCRC();
    }

    method CountPayloadCRC()
      requires payload.Sized()
      modifies this
      ensures header == old(header).(size := payload.size % SIZE_LIMIT, payloadCrc := 0)
    {
      header := header.(size := payload.size % SIZE_LIMIT);
      header := header.(payloadCrc := 0);
    }

    method CountHeaderCRC()
      modifies this
      ensures header == old(header).(crc := 0)
    {
      header := header.(crc := 0);
    }

    /** The two buffers that asyncWrite hands to async_write, one after the other. They decode
        to the message exactly if the header still tells the payload's length and the reader's
        checks pass; for a payload left alone since, exactly if its length fits the size field. */
    method Gather() returns (bytes: seq<Byte>)
      requires payload.Sized()
      ensures bytes == EncodeHeader(header) + payload.Content()
      ensures Clean(bytes, [Meaning()]) <==>
        header.crc == 0 && header.size == payload.size && (payload.size != 0 ==> header.payloadCrc == 0)
      ensures Valid() ==> bytes == EncodeFrame(Meaning()) && (Clean(bytes, [Meaning()]) <==> payload.size < SIZE_LIMIT)
    {
      bytes := EncodeHeader(header) + payload.data[..payload.size];
      DecodeEncodeHeader(header);
      CleanIsAccepted(EncodeHeader(header), payload.Content(), header.kind);
    }
  }

  /** An incoming message: its header is overwritten by the header read, its payload is resized
      and overwritten by the body read. */
  class MetaMessage {
    var header: Header
    const payload: Buffer

    constructor ()
      ensures fresh(payload) && payload.Sized() && payload.size == 0
      ensures header == Header(0, 0, 0, INVALID)
    {
      payload := new Buffer(0);
      header := Header(0, 0, 0, INVALID);
    }

    method IsEmpty() returns (empty: bool)
      ensures empty <==> header.size == 0
    {
      empty := header.size == 0;
    }

    method VerifyHeader() returns (ok: bool)
      ensures ok <==> header.crc == 0
    {
      ok := header.crc == 0;
    }

    method VerifyBody() returns (ok: bool)
      ensures ok <==> header.payloadCrc == 0
    {
      ok := header.payloadCrc == 0;
    }

    /** A payload that has just been resized takes the whole body and nothing else. */
    method FitToSize()
      modifies payload
      ensures payload.Sized() && payload.size == header.size == |payload.data|
    {
      payload.Resize(header.size);
    }

    /** The memory that the header read fills. */
    method ReadHeader(head: seq<Byte>)
      requires |head| == HEADER_SIZE
      modifies this
      ensures header == DecodeHeader(head)
    {
      header := DecodeHeader(head);
    }

    method ReadBody(body: seq<Byte>)
      requires payload.size == |body| == |payload.data|
      modifies payload
      ensures payload.Sized() && payload.Content() == body
    {
      payload.data := body;
    }
  }

  /** One frame's journey: the handlers' decisions on a stream that starts with a header and
      that header's body are the decoder's. */
  method TakeFrame(m: MetaMessage, head: seq<Byte>, body: seq<Byte>) returns (ok: bool)
    requires |head| == HEADER_SIZE && |body| == DecodeHeader(head).size && m.payload.Sized() && m.payload.size == 0
    modifies m, m.payload
    ensures ok <==> Accepts(head, body)
    ensures ok ==> m.payload.Sized() && Clean(head + body, [Frame(m.header.kind, m.payload.Content())])
    ensures !ok ==> var d := Decode(head + body); d.frames == [] && (d.stop.BadHeader? || d.stop.BadBody?)
  {
    m.ReadHeader(head);
    assert (head + body)[..HEADER_SIZE] == head && (head + body)[HEADER_SIZE..] == body;
    ok := m.VerifyHeader();
    if ok {
      var empty := m.IsEmpty();
      if !empty {
        m.FitToSize();
        m.ReadBody(body);
        ok := m.VerifyBody();
      }
    }
    if ok {
      DecodeOne(head, body);
      assert m.payload.Content() == body;
    }
  }
}
