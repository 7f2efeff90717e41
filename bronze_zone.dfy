/** The bronze zone (src/02_setup/03_bronze_zone.py): flat, cleaned records
    of the Protheus system, written as CSV to `bronze-zone`. */
module BronzeZone {
  import opened Calendar
  import opened Entropy
  import opened Storage

  const Bucket := "bronze-zone"
  const KeyPrefix := "processed/protheus/clients_bronze_"
  const KeySuffix := ".csv"
  const MinRecords := 2000
  const MaxRecords := 8000

  const ClientStatuses: seq<string> := ["ATIVO", "INATIVO", "SUSPENSO"]

  /** The 15 columns, in the order of the dictionary literal. */
  const Columns: seq<string> := [
    "cliente_id", "nome_completo", "email", "telefone", "endereco_completo",
    "cidade", "estado", "cep", "data_nascimento", "data_cadastro",
    "salario_mensal", "status_cliente", "empresa", "cargo", "data_atualizacao"]

  /** One bronze record; dates are already text, the salary is in cents. */
  datatype BronzeRecord = BronzeRecord(
    cliente_id: string,
    nome_completo: string,
    email: string,
    telefone: string,
    endereco_completo: string,
    cidade: string,
    estado: string,
    cep: string,
    data_nascimento: string,
    data_cadastro: string,
    salario_mensal: int,
    status_cliente: string,
    empresa: string,
    cargo: string,
    data_atualizacao: string)

  /** What every generated bronze record satisfies. */
  predicate BronzeOk(r: BronzeRecord)
  {
    IsCalendarDate(r.data_nascimento) && IsCalendarDate(r.data_cadastro) &&
    2000 * 100 <= r.salario_mensal <= 15000 * 100 &&
    r.status_cliente in ClientStatuses &&
    IsCalendarDateTime(r.data_atualizacao)
  }

  /** The record as the dictionary handed to `pd.DataFrame`: flat, every cell
      text except the salary. */
  function Row(r: BronzeRecord): (row: seq<Field>)
    ensures Keys(row) == Columns
    ensures forall i :: 0 <= i < |row| ==> (row[i].1.Text? <==> i != 10)
    ensures row[10].1.Fixed?
  {
    Dict(Columns, [
      Text(r.cliente_id), Text(r.nome_completo), Text(r.email), Text(r.telefone),
      Text(r.endereco_completo), Text(r.cidade), Text(r.estado), Text(r.cep),
      Text(r.data_nascimento), Text(r.data_cadastro), Fixed(r.salario_mensal, 2),
      Text(r.status_cliente), Text(r.empresa), Text(r.cargo), Text(r.data_atualizacao)])
  }

  /** The key `processed/protheus/clients_bronze_{timestamp}.csv`;
      the timestamp reads back out of it. */
  function Key(timestamp: int): (key: string)
    ensures IsKey(key, KeyPrefix, KeySuffix)
    ensures TimestampOf(key, KeyPrefix, KeySuffix) == timestamp
  {
    ObjectKeyRoundTrip(KeyPrefix, timestamp, KeySuffix);
    ObjectKey(KeyPrefix, timestamp, KeySuffix)
  }

  /** The list handed to `pd.DataFrame(data)` holds one dictionary per
      record, each with exactly the 15 columns, in order. */
  lemma CsvHeader(records: seq<BronzeRecord>)
    ensures |Table(records, Row)| == |records|
    ensures forall i :: 0 <= i < |records| ==>
      Table(records, Row)[i].Obj? && Keys(Table(records, Row)[i].fields) == Columns
  {
    TableSchema(records, Row, Columns);
  }

  /** One iteration of the loop in `generate_bronze_data`. `texts` are the
      record's ten Faker texts, in the order the literal asks for them, each
      stored unchanged in its column. */
  method DrawBronzeRecord(rng: Random, faker: Faker)
    returns (r: BronzeRecord, ghost texts: seq<(Attribute, string)>)
    modifies rng, faker
    ensures BronzeOk(r)
    ensures faker.made == old(faker.made) + texts && |texts| == 10
    ensures texts[0] == (Uuid4, r.cliente_id)
    ensures texts[1] == (Name, r.nome_completo)
    ensures texts[2] == (Email, r.email)
    ensures texts[3] == (PhoneNumber, r.telefone)
    ensures texts[4] == (Address, r.endereco_completo)
    ensures texts[5] == (City, r.cidade)
    ensures texts[6] == (State, r.estado)
    ensures texts[7] == (Postcode, r.cep)
    ensures texts[8] == (Company, r.empresa)
    ensures texts[9] == (Job, r.cargo)
  {
    var attributes := [
      Uuid4, Name, Email, PhoneNumber, Address, City, State, Postcode, Company, Job];
    var t := faker.FakeEach(attributes);
    var clienteId, nome, email, telefone, endereco, cidade, estado, cep, empresa, cargo :=
      t[0].1, t[1].1, t[2].1, t[3].1, t[4].1, t[5].1, t[6].1, t[7].1, t[8].1, t[9].1;
    texts := t;
    var nascimento := DateOfBirth(18, 80);
    var cadastro := DateBetween(2);
    var salario := rng.Uniform(2000, 15000, 2);
    var status, _ := rng.Choice(ClientStatuses);
    var agora := LocalTime();
    FormatIsCalendarDate(nascimento);
    FormatIsCalendarDate(cadastro);
    FormatIsCalendarDateTime(agora);
    r := BronzeRecord(
      clienteId, nome, email, telefone, endereco, cidade, estado, cep,
      FormatDate(nascimento), FormatDate(cadastro), salario, status, empresa, cargo,
      FormatDateTime(agora));
  }

  /** `generate_bronze_data(num_records)`: `num_records` records in the order
      drawn (none when the count is not positive). */
  method GenerateBronzeData(rng: Random, faker: Faker, numRecords: int) returns (records: seq<BronzeRecord>)
    modifies rng, faker
    ensures |records| == if numRecords < 0 then 0 else numRecords
    ensures forall i :: 0 <= i < |records| ==> BronzeOk(records[i])
  {
    records := [];
    var n := if numRecords < 0 then 0 else numRecords;
    for i := 0 to n
      invariant |records| == i
      invariant forall j :: 0 <= j < i ==> BronzeOk(records[j])
    {
      var r, _ := DrawBronzeRecord(rng, faker);
      records := records + [r];
    }
  }

  /** `main`: draw the count, generate, and save as CSV without an index
      column under the key of the clock reading `now`. */
  method RunBronzeZone(rng: Random, faker: Faker, store: ObjectStore, now: int)
    returns (ok: bool, ghost records: seq<BronzeRecord>)
    modifies rng, faker, store
    ensures MinRecords <= |records| <= MaxRecords
    ensures forall i :: 0 <= i < |records| ==> BronzeOk(records[i])
    ensures ok ==> store.objects == old(store.objects)[(Bucket, Key(now)) :=
      Object(Payload(Csv, Table(records, Row)), "text/csv")]
    ensures !ok ==> store.objects == old(store.objects)
  {
    var numRecords := rng.RandInt(MinRecords, MaxRecords);
    var data := GenerateBronzeData(rng, faker, numRecords);
    records := data;
    ok := Save(store, Table(data, Row), Bucket, Key(now), Csv);
  }
}
