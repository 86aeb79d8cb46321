/** The three recyclable envelopes and their in-place reset operations. The fields of
    each record are those its Reset assigns; each Reset sets every one of them to a
    constant, so the state it leaves does not depend on the state it found. */
module Envelopes {
  import opened GoValues

  /** A header field value. The AMQP field-value encoding is not part of this model. */
  datatype FieldValue = Bool(b: bool) | Int(i: int) | Text(s: string) | Binary(bytes: seq<uint8>)

  /** A header table (Go's map[string]interface{}). */
  type Table = map<string, FieldValue>

  /** An acknowledgement handle (Go's Acknowledger interface); only its identity matters. */
  class Acknowledger { }

  /** The content-header properties of a basic.publish frame (the properties struct,
      whose definition is not modelled), seen only as which properties are set and to
      what. */
  datatype Properties = Properties(settings: map<string, FieldValue>)

  /** properties{}: no property set. */
  const ZeroProperties: Properties := Properties(map[])

  /** The outgoing message the application fills in before a publish. */
  class Publishing {
    var Headers: Option<Table>
    var ContentType: string
    var ContentEncoding: string
    var DeliveryMode: uint8
    var Priority: uint8
    var CorrelationId: string
    var ReplyTo: string
    var Expiration: string
    var MessageId: string
    var Timestamp: Time
    var Type: string
    var UserId: string
    var AppId: string
    var Body: Bytes

    /** The content-header fields, Headers to Priority, at their zero values. */
    ghost predicate ContentClean()
      reads this`Headers, this`ContentType, this`ContentEncoding, this`DeliveryMode,
        this`Priority
    {
      Headers == None && ContentType == "" && ContentEncoding == "" && DeliveryMode == 0 &&
      Priority == 0
    }

    /** The message-identity fields, CorrelationId to AppId, at their zero values. */
    ghost predicate IdentityClean()
      reads this`CorrelationId, this`ReplyTo, this`Expiration, this`MessageId,
        this`Timestamp, this`Type, this`UserId, this`AppId
    {
      CorrelationId == "" && ReplyTo == "" && Expiration == "" && MessageId == "" &&
      Timestamp == ZeroTime && Type == "" && UserId == "" && AppId == ""
    }

    /** Every field at its zero value, and a body of length 0 (nil or empty). */
    ghost predicate IsClean()
      reads this
    {
      ContentClean() && IdentityClean() && Len(Body) == 0
    }

    /** Go's zero value &Publishing{}: clean, with a nil body. */
    ghost predicate IsNew()
      reads this
    {
      IsClean() && Body == None
    }

    /** The state Reset leaves: clean, with an empty body that is not nil. */
    ghost predicate IsReset()
      reads this
    {
      IsClean() && Body == Some([])
    }

    /** &Publishing{} */
    constructor ()
      ensures IsNew()
    {
      Headers := None;
      ContentType := "";
      ContentEncoding := "";
      DeliveryMode := 0;
      Priority := 0;
      CorrelationId := "";
      ReplyTo := "";
      Expiration := "";
      MessageId := "";
      Timestamp := ZeroTime;
      Type := "";
      UserId := "";
      AppId := "";
      Body := None;
    }

    /** Sets every field to its zero value and the body to an empty, non-nil slice.
        Resetting an instance that is already reset changes nothing. */
    method Reset()
      modifies this
      ensures IsReset()
      ensures old(IsReset()) ==> unchanged(this)
    {
      ResetContent();
      ResetIdentity();
      Body := Some([]);
    }

    /** The assignments of Reset to Headers through Priority. */
    method ResetContent()
      modifies this`Headers, this`ContentType, this`ContentEncoding, this`DeliveryMode,
        this`Priority
      ensures ContentClean()
    {
      Headers := None;
      ContentType := "";
      ContentEncoding := "";
      DeliveryMode := 0;
      Priority := 0;
    }

    /** The assignments of Reset to CorrelationId through AppId. */
    method ResetIdentity()
      modifies this`CorrelationId, this`ReplyTo, this`Expiration, this`MessageId,
        this`Timestamp, this`Type, this`UserId, this`AppId
      ensures IdentityClean()
    {
      CorrelationId := "";
      ReplyTo := "";
      Expiration := "";
      MessageId := "";
      Timestamp := ZeroTime;
      Type := "";
      UserId := "";
      AppId := "";
    }
  }

  /** The wire-level basic.publish frame built from a Publishing. */
  class BasicPublish {
    var Exchange: string
    var RoutingKey: string
    var Mandatory: bool
    var Immediate: bool
    var Properties: Properties
    var Body: Bytes

    /** Every field at its zero value, and a body of length 0 (nil or empty). */
    ghost predicate IsClean()
      reads this
    {
      Exchange == "" && RoutingKey == "" && !Mandatory && !Immediate &&
      Properties == ZeroProperties && Len(Body) == 0
    }

    /** Go's zero value &basicPublish{}: clean, with a nil body. */
    ghost predicate IsNew()
      reads this
    {
      IsClean() && Body == None
    }

    /** The state Reset leaves: clean, with an empty body that is not nil. */
    ghost predicate IsReset()
      reads this
    {
      IsClean() && Body == Some([])
    }

    /** &basicPublish{} */
    constructor ()
      ensures IsNew()
    {
      Exchange := "";
      RoutingKey := "";
      Mandatory := false;
      Immediate := false;
      Properties := ZeroProperties;
      Body := None;
    }

    /** Sets every field to its zero value and the body to an empty, non-nil slice.
        Resetting an instance that is already reset changes nothing. */
    method Reset()
      modifies this
      ensures IsReset()
      ensures old(IsReset()) ==> unchanged(this)
    {
      Exchange := "";
      RoutingKey := "";
      Mandatory := false;
      Immediate := false;
      Properties := ZeroProperties;
      Body := Some([]);
    }
  }

  /** A received message, handed to the application with its acknowledgement handle. */
  class Delivery {
    var Acknowledger: Acknowledger?
    var Headers: Option<Table>
    var ContentType: string
    var ContentEncoding: string
    var DeliveryMode: uint8
    var Priority: uint8
    var CorrelationId: string
    var ReplyTo: string
    var Expiration: string
    var MessageId: string
    var Timestamp: Time
    var Type: string
    var UserId: string
    var AppId: string
    var ConsumerTag: string
    var MessageCount: uint32
    var DeliveryTag: uint64
    var Redelivered: bool
    var Exchange: string
    var RoutingKey: string
    var Body: Bytes

    /** The content-header fields, Headers to Priority, at their zero values. */
    ghost predicate ContentClean()
      reads this`Headers, this`ContentType, this`ContentEncoding, this`DeliveryMode,
        this`Priority
    {
      Headers == None && ContentType == "" && ContentEncoding == "" && DeliveryMode == 0 &&
      Priority == 0
    }

    /** The message-identity fields, CorrelationId to AppId, at their zero values. */
    ghost predicate IdentityClean()
      reads this`CorrelationId, this`ReplyTo, this`Expiration, this`MessageId,
        this`Timestamp, this`Type, this`UserId, this`AppId
    {
      CorrelationId == "" && ReplyTo == "" && Expiration == "" && MessageId == "" &&
      Timestamp == ZeroTime && Type == "" && UserId == "" && AppId == ""
    }

    /** No acknowledgement handle, and the delivery metadata, ConsumerTag to RoutingKey,
        at zero values. */
    ghost predicate DeliveryInfoClean()
      reads this`Acknowledger, this`ConsumerTag, this`MessageCount, this`DeliveryTag,
        this`Redelivered, this`Exchange, this`RoutingKey
    {
      Acknowledger == null && ConsumerTag == "" && MessageCount == 0 && DeliveryTag == 0 &&
      !Redelivered && Exchange == "" && RoutingKey == ""
    }

    /** No acknowledgement handle, every other field at its zero value, and a body of
        length 0 (nil or empty). */
    ghost predicate IsClean()
      reads this
    {
      DeliveryInfoClean() && ContentClean() && IdentityClean() && Len(Body) == 0
    }

    /** Go's zero value &Delivery{}: clean, with a nil body. */
    ghost predicate IsNew()
      reads this
    {
      IsClean() && Body == None
    }

    /** The state Reset leaves: clean, with an empty body that is not nil. */
    ghost predicate IsReset()
      reads this
    {
      IsClean() && Body == Some([])
    }

    /** &Delivery{} */
    constructor ()
      ensures IsNew()
    {
      Acknowledger := null;
      Headers := None;
      ContentType := "";
      ContentEncoding := "";
      DeliveryMode := 0;
      Priority := 0;
      CorrelationId := "";
      ReplyTo := "";
      Expiration := "";
      MessageId := "";
      Timestamp := ZeroTime;
      Type := "";
      UserId := "";
      AppId := "";
      ConsumerTag := "";
      MessageCount := 0;
      DeliveryTag := 0;
      Redelivered := false;
      Exchange := "";
      RoutingKey := "";
      Body := None;
    }

    /** Drops the acknowledgement handle, sets every other field to its zero value and
        the body to an empty, non-nil slice. Resetting an instance that is already reset
        changes nothing. */
    method Reset()
      modifies this
      ensures IsReset()
      ensures old(IsReset()) ==> unchanged(this`Acknowledger, this`Headers, this`ContentType,
        this`ContentEncoding, this`DeliveryMode, this`Priority, this`CorrelationId, this`ReplyTo,
        this`Expiration, this`MessageId, this`Timestamp, this`Type, this`UserId, this`AppId,
        this`ConsumerTag, this`MessageCount, this`DeliveryTag, this`Redelivered, this`Exchange,
        this`RoutingKey, this`Body)
    {
      ResetDelivery();
      ResetContent();
      assert DeliveryInfoClean() && Body == Some([]);
      ResetIdentity();
      assert DeliveryInfoClean() && ContentClean() && Body == Some([]);
    }

    /** The assignments of Reset to Headers through Priority. */
    method ResetContent()
      modifies this`Headers, this`ContentType, this`ContentEncoding, this`DeliveryMode,
        this`Priority
      ensures ContentClean()
    {
      Headers := None;
      ContentType := "";
      ContentEncoding := "";
      DeliveryMode := 0;
      Priority := 0;
    }

    /** The assignments of Reset to CorrelationId through AppId. */
    method ResetIdentity()
      modifies this`CorrelationId, this`ReplyTo, this`Expiration, this`MessageId,
        this`Timestamp, this`Type, this`UserId, this`AppId
      ensures IdentityClean()
    {
      CorrelationId := "";
      ReplyTo := "";
      Expiration := "";
      MessageId := "";
      Timestamp := ZeroTime;
      Type := "";
      UserId := "";
      AppId := "";
    }

    /** The assignments of Reset to the acknowledgement handle, to ConsumerTag through
        RoutingKey, and to the body. */
    method ResetDelivery()
      modifies this`Acknowledger, this`ConsumerTag, this`MessageCount, this`DeliveryTag,
        this`Redelivered, this`Exchange, this`RoutingKey, this`Body
      ensures DeliveryInfoClean() && Body == Some([])
    {
      Acknowledger := null;
      ConsumerTag := "";
      MessageCount := 0;
      DeliveryTag := 0;
      Redelivered := false;
      Exchange := "";
      RoutingKey := "";
      Body := Some([]);
    }
  }
}
