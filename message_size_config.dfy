/**
 * The limits of the gRPC message-size filter: where they come from (channel
 * arguments and the per-method service config), how a call merges them,
 * and whether the filter is placed in a channel stack at all.
 *
 * A limit is an `int` in which any negative value means "unlimited"; the
 * channel arguments yield -1 for unlimited.
 */
module MessageSizeConfig {
  import opened Base

  const IntMax: int := 2147483647

  /** The range `grpc_channel_args_find_integer` is asked to return: [-1, INT_MAX]. */
  type ChannelLimit = x: int | -1 <= x <= IntMax

  /** What `gpr_parse_nonnegative_int` returns: -1 on failure, otherwise a C `int` that is not negative. */
  type ParsedInt = x: int | -1 <= x <= IntMax

  /**
   * The channel arguments the filter consults. The two lengths are what the
   * integer lookup returns for `GRPC_ARG_MAX_SEND_MESSAGE_LENGTH` and
   * `GRPC_ARG_MAX_RECEIVE_MESSAGE_LENGTH` (the default when the argument is
   * absent); `serviceConfig` is the string of `GRPC_ARG_SERVICE_CONFIG`.
   */
  datatype ChannelArgs = ChannelArgs(
    wantMinimalStack: bool,
    maxSendMessageLength: ChannelLimit,
    maxReceiveMessageLength: ChannelLimit,
    serviceConfig: Option<string>)

  /** `message_size_limits`. */
  datatype Limits = Limits(maxSendSize: int, maxRecvSize: int)

  /** A message of `length` bytes is over `limit`. A limit below zero admits everything. */
  predicate Exceeds(limit: int, length: nat) {
    limit >= 0 && length > limit
  }

  /** `GetMaxRecvSizeFromChannelArgs`: a minimal stack admits every received length. */
  function GetMaxRecvSizeFromChannelArgs(args: ChannelArgs): (r: ChannelLimit)
    ensures args.wantMinimalStack ==> forall n: nat :: !Exceeds(r, n)
    ensures !args.wantMinimalStack ==> r == args.maxReceiveMessageLength
  {
    if args.wantMinimalStack then -1 else args.maxReceiveMessageLength
  }

  /** `GetMaxSendSizeFromChannelArgs`: a minimal stack admits every sent length. */
  function GetMaxSendSizeFromChannelArgs(args: ChannelArgs): (r: ChannelLimit)
    ensures args.wantMinimalStack ==> forall n: nat :: !Exceeds(r, n)
    ensures !args.wantMinimalStack ==> r == args.maxSendMessageLength
  {
    if args.wantMinimalStack then -1 else args.maxSendMessageLength
  }

  /** `get_message_size_limits`: the channel-level limits. */
  function GetMessageSizeLimits(args: ChannelArgs): (lim: Limits)
    ensures args.wantMinimalStack ==> lim == Limits(-1, -1)
    ensures !args.wantMinimalStack ==>
      lim == Limits(args.maxSendMessageLength, args.maxReceiveMessageLength)
    ensures -1 <= lim.maxSendSize <= IntMax && -1 <= lim.maxRecvSize <= IntMax
  {
    Limits(GetMaxSendSizeFromChannelArgs(args), GetMaxRecvSizeFromChannelArgs(args))
  }

  /**
   * The limit a call uses, given the channel's and the method's: the method
   * limit replaces the channel limit when it is set (not negative) and is
   * tighter, or when the channel is unlimited. A message is over the merged
   * limit exactly when it is over either of the two.
   */
  function MergeLimit(channel: int, perMethod: int): (r: int)
    ensures r == channel || r == perMethod
    ensures forall n: nat {:trigger Exceeds(r, n)} :: Exceeds(r, n) <==> Exceeds(channel, n) || Exceeds(perMethod, n)
  {
    if perMethod >= 0 && (perMethod < channel || channel < 0) then perMethod else channel
  }

  /** The merged limits are never looser than the channel's, per message length. */
  lemma MergeNeverLooser(channel: Limits, perMethod: Limits, n: nat)
    ensures Exceeds(channel.maxSendSize, n) ==> Exceeds(MergeLimit(channel.maxSendSize, perMethod.maxSendSize), n)
    ensures Exceeds(channel.maxRecvSize, n) ==> Exceeds(MergeLimit(channel.maxRecvSize, perMethod.maxRecvSize), n)
  {
  }

  /** Merging is symmetric in its effect: which of the two limits comes from where does not matter. */
  lemma MergeSymmetric(a: int, b: int, n: nat)
    ensures Exceeds(MergeLimit(a, b), n) <==> Exceeds(MergeLimit(b, a), n)
  {
  }

  /** The JSON value kinds of the service-config parser. */
  datatype JsonType = JsonNull | JsonTrue | JsonFalse | JsonNumber | JsonString | JsonObject | JsonArray

  /**
   * A JSON value as the parser sees it: its kind and its `string_value()`,
   * which holds the text of a string or of a number.
   */
  datatype JsonValue = JsonValue(kind: JsonType, stringValue: string)

  /** The entries in the error list of `ParsePerMethodParams`. */
  datatype ConfigError = ShouldBeOfTypeNumber(field: string) | ShouldBeNonNegative(field: string)

  /**
   * The error `ParsePerMethodParams` reports: a parent error with the
   * parser's name as its description and the entries as its children.
   */
  datatype ParserError = ParserError(description: string, children: seq<ConfigError>)

  const ParserName: string := "Message size parser"

  const MaxRequestField: string := "maxRequestMessageBytes"
  const MaxResponseField: string := "maxResponseMessageBytes"

  function ErrorText(e: ConfigError): string {
    match e
    case ShouldBeOfTypeNumber(f) => "field:" + f + " error:should be of type number"
    case ShouldBeNonNegative(f) => "field:" + f + " error:should be non-negative"
  }

  predicate NumberLike(v: JsonValue) {
    v.kind == JsonString || v.kind == JsonNumber
  }

  /** The errors one field contributes. */
  function FieldErrors(json: map<string, JsonValue>, field: string, parse: string -> ParsedInt): seq<ConfigError> {
    if field !in json then []
    else if !NumberLike(json[field]) then [ShouldBeOfTypeNumber(field)]
    else if parse(json[field].stringValue) == -1 then [ShouldBeNonNegative(field)]
    else []
  }

  /** The value one field contributes: -1 when it is absent or unusable. */
  function FieldValue(json: map<string, JsonValue>, field: string, parse: string -> ParsedInt): ParsedInt {
    if field in json && NumberLike(json[field]) then parse(json[field].stringValue) else -1
  }

  /**
   * `MessageSizeParser::ParsePerMethodParams` on the method's JSON object,
   * with `parse` standing for `gpr_parse_nonnegative_int`. The request size
   * becomes the send limit and the response size the receive limit.
   */
  method ParsePerMethodParams(json: map<string, JsonValue>, parse: string -> ParsedInt)
    returns (r: Result<Limits, ParserError>)
    ensures r.Err? <==>
      FieldErrors(json, MaxRequestField, parse) + FieldErrors(json, MaxResponseField, parse) != []
    ensures r.Err? ==>
      r.error == ParserError(ParserName, FieldErrors(json, MaxRequestField, parse) + FieldErrors(json, MaxResponseField, parse))
    ensures r.Ok? ==>
      r.value == Limits(FieldValue(json, MaxRequestField, parse), FieldValue(json, MaxResponseField, parse))
    ensures r.Ok? ==> (r.value.maxSendSize == -1 <==> MaxRequestField !in json)
    ensures r.Ok? ==> (r.value.maxRecvSize == -1 <==> MaxResponseField !in json)
    ensures r.Ok? ==> r.value.maxSendSize <= IntMax && r.value.maxRecvSize <= IntMax
  {
    var errorList: seq<ConfigError> := [];
    var maxRequestMessageBytes: int := -1;
    if MaxRequestField in json {
      var v := json[MaxRequestField];
      if v.kind != JsonString && v.kind != JsonNumber {
        errorList := errorList + [ShouldBeOfTypeNumber(MaxRequestField)];
      } else {
        maxRequestMessageBytes := parse(v.stringValue);
        if maxRequestMessageBytes == -1 {
          errorList := errorList + [ShouldBeNonNegative(MaxRequestField)];
        }
      }
    }
    var maxResponseMessageBytes: int := -1;
    if MaxResponseField in json {
      var v := json[MaxResponseField];
      if v.kind != JsonString && v.kind != JsonNumber {
        errorList := errorList + [ShouldBeOfTypeNumber(MaxResponseField)];
      } else {
        maxResponseMessageBytes := parse(v.stringValue);
        if maxResponseMessageBytes == -1 {
          errorList := errorList + [ShouldBeNonNegative(MaxResponseField)];
        }
      }
    }
    if errorList != [] {
      return Err(ParserError(ParserName, errorList));
    }
    return Ok(Limits(maxRequestMessageBytes, maxResponseMessageBytes));
  }

  /** Each field reports at most one error, so the list has one or two entries. */
  lemma ErrorsPerField(json: map<string, JsonValue>, field: string, parse: string -> ParsedInt)
    ensures |FieldErrors(json, field, parse)| <= 1
    ensures FieldErrors(json, field, parse) != [] ==> field in json && FieldErrors(json, field, parse)[0].field == field
    ensures FieldErrors(json, field, parse) == [] ==> FieldValue(json, field, parse) >= 0 || field !in json
  {
  }

  /** With neither field present the method config is unlimited in both directions. */
  lemma EmptyConfigUnlimited(json: map<string, JsonValue>, parse: string -> ParsedInt)
    requires MaxRequestField !in json && MaxResponseField !in json
    ensures FieldErrors(json, MaxRequestField, parse) + FieldErrors(json, MaxResponseField, parse) == []
    ensures FieldValue(json, MaxRequestField, parse) == -1 && FieldValue(json, MaxResponseField, parse) == -1
  {
  }

  /** The outcome of a channel-init stage: whether the filter went in, and the stage's result. */
  datatype StageResult = StageResult(prepended: bool, ok: bool)

  /**
   * `maybe_add_message_size_filter_subchannel`. `prependOk` is what the
   * stack builder returns when asked to prepend the filter.
   */
  function MaybeAddMessageSizeFilterSubchannel(args: ChannelArgs, prependOk: bool): (r: StageResult)
    ensures r.prepended <==> !args.wantMinimalStack
    ensures r.ok <==> !r.prepended || prependOk
  {
    if args.wantMinimalStack then StageResult(false, true) else StageResult(true, prependOk)
  }

  /**
   * `maybe_add_message_size_filter` for direct client channels and server
   * channels: the filter goes in only when some limit or a service config
   * is given.
   */
  function MaybeAddMessageSizeFilter(args: ChannelArgs, prependOk: bool): (r: StageResult)
    ensures r.ok <==> !r.prepended || prependOk
  {
    if args.wantMinimalStack then StageResult(false, true)
    else
      var lim := GetMessageSizeLimits(args);
      var enable := lim.maxSendSize != -1 || lim.maxRecvSize != -1 || args.serviceConfig.Some?;
      if enable then StageResult(true, prependOk) else StageResult(false, true)
  }

  /**
   * The direct-channel stage adds the filter exactly when no minimal stack
   * is wanted and a channel argument sets a limit or a service config is
   * given.
   */
  lemma FilterDecision(args: ChannelArgs, prependOk: bool)
    ensures MaybeAddMessageSizeFilter(args, prependOk).prepended <==>
      !args.wantMinimalStack &&
      (args.maxSendMessageLength != -1 || args.maxReceiveMessageLength != -1 || args.serviceConfig.Some?)
  {
  }

  /**
   * A stack the filter is left out of enforces nothing: with the limits it
   * would use, every length is admitted in both directions.
   */
  lemma OmittedFilterEnforcesNothing(args: ChannelArgs, prependOk: bool, n: nat)
    requires !MaybeAddMessageSizeFilter(args, prependOk).prepended
    ensures !Exceeds(GetMessageSizeLimits(args).maxSendSize, n)
    ensures !Exceeds(GetMessageSizeLimits(args).maxRecvSize, n)
  {
  }

  /** Wherever the direct-channel stage adds the filter, the subchannel stage adds it too. */
  lemma SubchannelAddsWheneverDirectDoes(args: ChannelArgs, prependOk: bool)
    ensures MaybeAddMessageSizeFilter(args, prependOk).prepended ==>
      MaybeAddMessageSizeFilterSubchannel(args, prependOk).prepended
  {
  }
}
