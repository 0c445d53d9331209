/** The payloads of the pairing QR codes and the list of agent ids in them (daemon/bin/src/main.rs). */
module QrPayload {
  import opened PercentEncoding
  import opened Text
  import opened Wrappers

  // ----- Agent ids -----

  function TrimmedIds(parts: seq<string>): seq<string> {
    if parts == [] then []
    else (if Trim(parts[0]) == "" then [] else [Trim(parts[0])]) + TrimmedIds(parts[1..])
  }

  function SplitIds(value: string): seq<string> {
    TrimmedIds(Split(value, ','))
  }

  ghost predicate IsPlainId(id: string) {
    id != "" && IsTrimmed(id) && ',' !in id
  }

  lemma {:induction false} TrimmedIdsArePlain(parts: seq<string>)
    requires Free(parts, ',')
    ensures forall id <- TrimmedIds(parts) :: IsPlainId(id)
  {
    if parts != [] {
      assert forall i | 0 <= i < |parts| - 1 :: parts[1..][i] == parts[i+1];
      TrimmedIdsArePlain(parts[1..]);
      TrimIsTrimmed(parts[0]);
      TrimKeepsNothingNew(parts[0], ',');
      assert ',' !in parts[0];
      hide Trim, TrimmedIds;
    }
  }

  lemma TrimKeepsNothingNew(s: string, c: char)
    requires c !in s
    ensures c !in Trim(s)
  {
    TrimStartIsSuffix(s);
    TrimEndFacts(TrimStart(s));
    hide TrimStart, TrimEnd;
    forall i | 0 <= i < |Trim(s)| ensures Trim(s)[i] != c {
      assert Trim(s)[i] == TrimStart(s)[i] == s[|s| - |TrimStart(s)| + i];
    }
  }

  lemma TrimStartIsSuffix(s: string)
    ensures |TrimStart(s)| <= |s| && TrimStart(s) == s[|s| - |TrimStart(s)|..]
  {
  }

  lemma {:induction false} PlainIdsStay(ids: seq<string>)
    requires forall i | 0 <= i < |ids| :: IsPlainId(ids[i])
    ensures TrimmedIds(ids) == ids
  {
    if ids != [] {
      TrimIsTrimmed(ids[0]);
      PlainIdsStay(ids[1..]);
      assert ids == [ids[0]] + ids[1..];
    }
  }

  /** Splitting undoes the comma join exactly when all ids are trimmed, non-empty and free of
      commas. */
  lemma SplitIdsUndoesJoin(ids: seq<string>)
    requires ids != []
    ensures SplitIds(Join(ids, ',')) == ids <==> forall i | 0 <= i < |ids| :: IsPlainId(ids[i])
  {
    hide Trim, TrimmedIds, Split, Join, IsTrimmed;
    if forall i | 0 <= i < |ids| :: IsPlainId(ids[i]) {
      SplitUndoesJoin(ids, ',');
      PlainIdsStay(ids);
    }
    if SplitIds(Join(ids, ',')) == ids {
      JoinUndoesSplit(Join(ids, ','), ',');
      TrimmedIdsArePlain(Split(Join(ids, ','), ','));
      forall i | 0 <= i < |ids| ensures IsPlainId(ids[i]) { assert ids[i] in ids; }
    }
  }

  // ----- Payloads -----

  const CONNECT_PREFIX := "agentchat://connect?"

  datatype QueryField = QueryField(key: string, value: string)

  function PrintField(f: QueryField): string { f.key + ['='] + EncodedText(f.value) }

  function PrintFields(fields: seq<QueryField>): seq<string> {
    if fields == [] then [] else [PrintField(fields[0])] + PrintFields(fields[1..])
  }

  /** A query with these fields, values percent encoded. */
  function PrintQuery(fields: seq<QueryField>): string
    requires fields != []
  {
    Join(PrintFields(fields), '&')
  }

  function ParseField(text: string): Option<QueryField> {
    var parts := Split(text, '=');
    if |parts| != 2 || DecodedText(parts[1]).None? then None
    else Some(QueryField(parts[0], DecodedText(parts[1]).value))
  }

  function ParseFields(texts: seq<string>): Option<seq<QueryField>> {
    if texts == [] then Some([])
    else
      var first, rest := ParseField(texts[0]), ParseFields(texts[1..]);
      if first.None? || rest.None? then None else Some([first.value] + rest.value)
  }

  /** How a reader takes a connect payload apart: at `?`, then `&`, then `=`. */
  function ParsePayload(payload: string): Option<seq<QueryField>> {
    if CONNECT_PREFIX <= payload then ParseFields(Split(payload[|CONNECT_PREFIX|..], '&')) else None
  }

  ghost predicate IsPlainKey(key: string) { '=' !in key && '&' !in key }

  lemma FieldSurvives(f: QueryField)
    requires IsPlainKey(f.key)
    ensures ParseField(PrintField(f)) == Some(f) && '&' !in PrintField(f)
  {
    hide Split, EncodedBytes, DecodedText;
    EncodedIsSafe(Utf8.Encoded(f.value));
    TextSurvives(f.value);
    SplitWhole(f.key, '=');
    SplitWhole(EncodedText(f.value), '=');
    SplitConcat(f.key, EncodedText(f.value), '=');
  }

  lemma {:induction false} FieldsSurvive(fields: seq<QueryField>)
    requires forall i | 0 <= i < |fields| :: IsPlainKey(fields[i].key)
    ensures ParseFields(PrintFields(fields)) == Some(fields)
    ensures |PrintFields(fields)| == |fields| && Free(PrintFields(fields), '&')
  {
    hide ParseField, PrintField, IsPlainKey;
    if fields != [] {
      FieldSurvives(fields[0]);
      FieldsSurvive(fields[1..]);
      assert PrintFields(fields)[1..] == PrintFields(fields[1..]);
      assert fields == [fields[0]] + fields[1..];
    }
  }

  /** Reading a payload returns exactly the fields that were put in, whatever their values. */
  lemma PayloadSurvives(fields: seq<QueryField>)
    requires fields != [] && forall i | 0 <= i < |fields| :: IsPlainKey(fields[i].key)
    ensures ParsePayload(CONNECT_PREFIX + PrintQuery(fields)) == Some(fields)
  {
    FieldsSurvive(fields);
    hide Split, Join, ParseFields, PrintFields;
    SplitUndoesJoin(PrintFields(fields), '&');
    assert (CONNECT_PREFIX + PrintQuery(fields))[|CONNECT_PREFIX|..] == PrintQuery(fields);
  }

  function WsFields(wsUrl: string, agentIds: seq<string>): seq<QueryField>
    requires agentIds != []
  {
    [QueryField("url", wsUrl), QueryField("agents", Join(agentIds, ','))]
  }

  function RelayFields(relayUrl: string, ticket: string, agentIds: seq<string>): seq<QueryField> {
    [QueryField("relay_url", relayUrl), QueryField("pairing_ticket", ticket),
     QueryField("relay_pairing", "claim"), QueryField("relay_crypto", "dev")] +
    if agentIds == [] then [] else [QueryField("agents", Join(agentIds, ','))]
  }

  /** Without agents the payload is the bare URL. */
  function MobileQrPayload(wsUrl: string, agentIds: seq<string>): string {
    if agentIds == [] then wsUrl
    else
      CONNECT_PREFIX + "url=" + EncodedText(wsUrl) + "&agents=" + EncodedText(Join(agentIds, ','))
  }

  lemma OneField(f: QueryField)
    ensures PrintQuery([f]) == PrintField(f)
  {
    assert PrintFields([f]) == [PrintField(f)];
  }

  lemma {:induction false} PrintFieldsAppended(fields: seq<QueryField>, f: QueryField)
    ensures PrintFields(fields + [f]) == PrintFields(fields) + [PrintField(f)]
  {
    hide PrintField;
    if fields == [] {
      assert [] + [f] == [f];
    } else {
      assert (fields + [f])[1..] == fields[1..] + [f];
      PrintFieldsAppended(fields[1..], f);
    }
  }

  lemma FieldAppended(fields: seq<QueryField>, f: QueryField)
    requires fields != []
    ensures PrintQuery(fields + [f]) == PrintQuery(fields) + (['&'] + PrintField(f))
  {
    hide PrintField, Join;
    PrintFieldsAppended(fields, f);
    JoinAppended(PrintFields(fields), PrintField(f), '&');
  }

  /** Pushing `&`, a key, `=` and an encoded value onto a payload adds a field to it. */
  lemma FieldPushed(payload: string, fields: seq<QueryField>, keyText: string, f: QueryField)
    requires fields != [] && payload == CONNECT_PREFIX + PrintQuery(fields)
    requires keyText == ['&'] + f.key + ['=']
    ensures payload + keyText + EncodedText(f.value) == CONNECT_PREFIX + PrintQuery(fields + [f])
  {
    hide PrintQuery;
    FieldAppended(fields, f);
    ConcatAssociates(CONNECT_PREFIX, PrintQuery(fields), ['&'] + PrintField(f));
    assert keyText + EncodedText(f.value) == ['&'] + PrintField(f);
    ConcatAssociates(payload, keyText, EncodedText(f.value));
  }

  lemma FirstField(keyText: string, f: QueryField)
    requires keyText == CONNECT_PREFIX + f.key + ['=']
    ensures keyText + EncodedText(f.value) == CONNECT_PREFIX + PrintQuery([f])
  {
    OneField(f);
    hide PrintQuery;
    assert keyText == CONNECT_PREFIX + (f.key + ['=']);
    ConcatAssociates(CONNECT_PREFIX, f.key + ['='], EncodedText(f.value));
  }

  /** A reader of the payload gets back exactly the URL and the list of agents. */
  lemma MobilePayloadSurvives(wsUrl: string, agentIds: seq<string>)
    requires agentIds != []
    ensures MobileQrPayload(wsUrl, agentIds) == CONNECT_PREFIX + PrintQuery(WsFields(wsUrl, agentIds))
    ensures ParsePayload(MobileQrPayload(wsUrl, agentIds)) == Some(WsFields(wsUrl, agentIds))
    ensures SplitIds(WsFields(wsUrl, agentIds)[1].value) == agentIds <==>
            forall i | 0 <= i < |agentIds| :: IsPlainId(agentIds[i])
  {
    var url, agents := QueryField("url", wsUrl), QueryField("agents", Join(agentIds, ','));
    hide PrintQuery, ParsePayload, EncodedText, SplitIds, Join, IsPlainId;
    FirstField(CONNECT_PREFIX + "url=", url);
    FieldPushed(CONNECT_PREFIX + "url=" + EncodedText(wsUrl), [url], "&agents=", agents);
    assert [url] + [agents] == WsFields(wsUrl, agentIds);
    KeysArePlain();
    PayloadSurvives(WsFields(wsUrl, agentIds));
    SplitIdsUndoesJoin(agentIds);
  }

  lemma KeysArePlain()
    ensures forall key | key in {"url", "agents", "relay_url", "pairing_ticket", "relay_pairing", "relay_crypto"} ::
              IsPlainKey(key)
  {
  }

  method RelayQrPayload(relayUrl: string, ticket: string, agentIds: seq<string>) returns (payload: string)
    ensures payload == CONNECT_PREFIX + PrintQuery(RelayFields(relayUrl, ticket, agentIds))
    ensures ParsePayload(payload) == Some(RelayFields(relayUrl, ticket, agentIds))
    ensures agentIds != [] ==>
              (SplitIds(RelayFields(relayUrl, ticket, agentIds)[4].value) == agentIds <==>
               forall i | 0 <= i < |agentIds| :: IsPlainId(agentIds[i]))
  {
    hide SplitIds, IsPlainId;
    if agentIds != [] { SplitIdsUndoesJoin(agentIds); }
    hide PrintQuery, ParsePayload, EncodedText, Join, IsPlainKey;
    var url := PercentEncodeComponent(relayUrl);
    var encodedTicket := PercentEncodeComponent(ticket);
    payload := CONNECT_PREFIX + "relay_url=" + url + "&pairing_ticket=" + encodedTicket +
               "&relay_pairing=claim&relay_crypto=dev";
    RelayPrefix(relayUrl, ticket);
    if agentIds != [] {
      ghost var agents := QueryField("agents", Join(agentIds, ','));
      FieldPushed(payload, RelayFields(relayUrl, ticket, []), "&agents=", agents);
      payload := payload + "&agents=";
      var ids := PercentEncodeComponent(Join(agentIds, ','));
      payload := payload + ids;
      assert RelayFields(relayUrl, ticket, []) + [agents] == RelayFields(relayUrl, ticket, agentIds);
    }
    KeysArePlain();
    PayloadSurvives(RelayFields(relayUrl, ticket, agentIds));
  }

  /** The part of a relay payload that is always there. */
  lemma RelayPrefix(relayUrl: string, ticket: string)
    ensures CONNECT_PREFIX + "relay_url=" + EncodedText(relayUrl) + "&pairing_ticket=" + EncodedText(ticket) +
            "&relay_pairing=claim&relay_crypto=dev" ==
            CONNECT_PREFIX + PrintQuery(RelayFields(relayUrl, ticket, []))
  {
    hide PrintQuery, EncodedText;
    var f1, f2 := QueryField("relay_url", relayUrl), QueryField("pairing_ticket", ticket);
    var f3, f4 := QueryField("relay_pairing", "claim"), QueryField("relay_crypto", "dev");
    var p1 := CONNECT_PREFIX + "relay_url=" + EncodedText(relayUrl);
    FirstField(CONNECT_PREFIX + "relay_url=", f1);
    var p2 := p1 + "&pairing_ticket=" + EncodedText(ticket);
    FieldPushed(p1, [f1], "&pairing_ticket=", f2);
    assert [f1] + [f2] == [f1, f2];
    FixedFields(p2, [f1, f2], f3, f4);
    assert [f1, f2] + [f3, f4] == RelayFields(relayUrl, ticket, []);
  }

  lemma FixedText()
    ensures "&relay_pairing=claim&relay_crypto=dev" == "&relay_pairing=" + ("claim" + ("&relay_crypto=" + "dev"))
  {
  }

  lemma FixedFields(payload: string, fields: seq<QueryField>, f3: QueryField, f4: QueryField)
    requires fields != [] && payload == CONNECT_PREFIX + PrintQuery(fields)
    requires f3 == QueryField("relay_pairing", "claim") && f4 == QueryField("relay_crypto", "dev")
    ensures payload + "&relay_pairing=claim&relay_crypto=dev" == CONNECT_PREFIX + PrintQuery(fields + [f3, f4])
  {
    hide PrintQuery, EncodedText;
    UnreservedTextStays("claim");
    UnreservedTextStays("dev");
    var p3 := payload + "&relay_pairing=" + "claim";
    FieldPushed(payload, fields, "&relay_pairing=", f3);
    FieldPushed(p3, fields + [f3], "&relay_crypto=", f4);
    assert fields + [f3] + [f4] == fields + [f3, f4];
    FixedText();
    ConcatAssociates(payload, "&relay_pairing=", "claim" + ("&relay_crypto=" + "dev"));
    ConcatAssociates(payload + "&relay_pairing=", "claim", "&relay_crypto=" + "dev");
    ConcatAssociates(p3, "&relay_crypto=", "dev");
  }
}
