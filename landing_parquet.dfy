/** The Parquet landing source (src/02_setup/04_landing_parquet.py): raw
    Cloud X client records, flat, with credit and purchase fields, written as
    Parquet to `landing-zone`. */
module LandingParquet {
  import opened Calendar
  import opened Entropy
  import opened Storage

  const Bucket := "landing-zone"
  const KeyPrefix := "dataway/cloud_x/clients/clients_data_"
  const KeySuffix := ".parquet"
  const MinRecords := 1000
  const MaxRecords := 10000

  const Statuses: seq<string> := ["ATIVO", "INATIVO", "PENDENTE"]
  const Categories: seq<string> := ["PREMIUM", "STANDARD", "BASIC"]
  const Channels: seq<string> := ["ONLINE", "LOJA_FISICA", "TELEFONE", "APP"]

  /** The 19 columns, in the order of the dictionary literal. */
  const Columns: seq<string> := [
    "id", "nome", "email", "telefone", "endereco", "cidade", "estado", "cep",
    "data_nascimento", "data_cadastro", "salario", "status", "empresa",
    "score_credito", "limite_credito", "ultima_compra", "total_compras",
    "categoria", "canal_preferido"]

  /** One Parquet landing record. The three dates stay `date` objects (they
      are never formatted); money is in cents. */
  datatype ClientRecord = ClientRecord(
    id: string,
    nome: string,
    email: string,
    telefone: string,
    endereco: string,
    cidade: string,
    estado: string,
    cep: string,
    data_nascimento: Date,
    data_cadastro: Date,
    salario: int,
    status: string,
    empresa: string,
    score_credito: int,
    limite_credito: int,
    ultima_compra: Date,
    total_compras: int,
    categoria: string,
    canal_preferido: string)

  /** What every generated Parquet landing record satisfies. */
  predicate RecordOk(r: ClientRecord)
  {
    ValidDate(r.data_nascimento) && ValidDate(r.data_cadastro) &&
    1000 * 100 <= r.salario <= 15000 * 100 &&
    r.status in Statuses &&
    300 <= r.score_credito <= 850 &&
    1000 * 100 <= r.limite_credito <= 50000 * 100 &&
    ValidDate(r.ultima_compra) &&
    0 <= r.total_compras <= 100000 * 100 &&
    r.categoria in Categories &&
    r.canal_preferido in Channels
  }

  /** The record as the dictionary handed to `pd.DataFrame`: flat, and the
      only date-typed columns are `data_nascimento`, `data_cadastro` and
      `ultima_compra`. */
  function Row(r: ClientRecord): (row: seq<Field>)
    ensures Keys(row) == Columns
    ensures forall i :: 0 <= i < |row| ==> !row[i].1.Obj?
    ensures forall i :: 0 <= i < |row| ==> (row[i].1.Day? <==> i in {8, 9, 15})
  {
    Dict(Columns, [
      Text(r.id), Text(r.nome), Text(r.email), Text(r.telefone), Text(r.endereco),
      Text(r.cidade), Text(r.estado), Text(r.cep), Day(r.data_nascimento),
      Day(r.data_cadastro), Fixed(r.salario, 2), Text(r.status), Text(r.empresa),
      Int(r.score_credito), Fixed(r.limite_credito, 2), Day(r.ultima_compra),
      Fixed(r.total_compras, 2), Text(r.categoria), Text(r.canal_preferido)])
  }

  /** The key `dataway/cloud_x/clients/clients_data_{timestamp}.parquet`;
      the timestamp reads back out of it. */
  function Key(timestamp: int): (key: string)
    ensures IsKey(key, KeyPrefix, KeySuffix)
    ensures TimestampOf(key, KeyPrefix, KeySuffix) == timestamp
  {
    ObjectKeyRoundTrip(KeyPrefix, timestamp, KeySuffix);
    ObjectKey(KeyPrefix, timestamp, KeySuffix)
  }

  /** One iteration of the loop in `generate_fake_data_records`. `texts` are
      the record's nine Faker texts, in the order the literal asks for them,
      each stored unchanged in its column. */
  method DrawRecord(rng: Random, faker: Faker)
    returns (r: ClientRecord, ghost texts: seq<(Attribute, string)>)
    modifies rng, faker
    ensures RecordOk(r)
    ensures faker.made == old(faker.made) + texts && |texts| == 9
    ensures texts[0] == (Uuid4, r.id) && texts[1] == (Name, r.nome) && texts[2] == (Email, r.email)
    ensures texts[3] == (PhoneNumber, r.telefone)
    ensures texts[4] == (Address, r.endereco)
    ensures texts[5] == (City, r.cidade)
    ensures texts[6] == (State, r.estado)
    ensures texts[7] == (Postcode, r.cep)
    ensures texts[8] == (Company, r.empresa)
  {
    var attributes := [Uuid4, Name, Email, PhoneNumber, Address, City, State, Postcode, Company];
    var t := faker.FakeEach(attributes);
    var id, nome, email, telefone, endereco, cidade, estado, cep, empresa :=
      t[0].1, t[1].1, t[2].1, t[3].1, t[4].1, t[5].1, t[6].1, t[7].1, t[8].1;
    texts := t;
    var nascimento := DateOfBirth(18, 80);
    var cadastro := DateBetween(2);
    var salario := rng.Uniform(1000, 15000, 2);
    var status, _ := rng.Choice(Statuses);
    var score := rng.RandInt(300, 850);
    var limite := rng.Uniform(1000, 50000, 2);
    var ultimaCompra := DateBetween(1);
    var total := rng.Uniform(0, 100000, 2);
    var categoria, _ := rng.Choice(Categories);
    var canal, _ := rng.Choice(Channels);
    r := ClientRecord(
      id, nome, email, telefone, endereco, cidade, estado, cep, nascimento, cadastro,
      salario, status, empresa, score, limite, ultimaCompra, total, categoria, canal);
  }

  /** `generate_fake_data_records(num_records)`: `num_records` records in the
      order drawn (none when the count is not positive). */
  method GenerateRecords(rng: Random, faker: Faker, numRecords: int) returns (records: seq<ClientRecord>)
    modifies rng, faker
    ensures |records| == if numRecords < 0 then 0 else numRecords
    ensures forall i :: 0 <= i < |records| ==> RecordOk(records[i])
  {
    records := [];
    var n := if numRecords < 0 then 0 else numRecords;
    for i := 0 to n
      invariant |records| == i
      invariant forall j :: 0 <= j < i ==> RecordOk(records[j])
    {
      var r, _ := DrawRecord(rng, faker);
      records := records + [r];
    }
  }

  /** `main`: draw the count, generate, and save as Parquet under the key of
      the clock reading `now`. */
  method RunLandingParquet(rng: Random, faker: Faker, store: ObjectStore, now: int)
    returns (ok: bool, ghost records: seq<ClientRecord>)
    modifies rng, faker, store
    ensures MinRecords <= |records| <= MaxRecords
    ensures forall i :: 0 <= i < |records| ==> RecordOk(records[i])
    ensures ok ==> store.objects == old(store.objects)[(Bucket, Key(now)) :=
      Object(Payload(Parquet, Table(records, Row)), "application/octet-stream")]
    ensures !ok ==> store.objects == old(store.objects)
  {
    var numRecords := rng.RandInt(MinRecords, MaxRecords);
    var data := GenerateRecords(rng, faker, numRecords);
    records := data;
    ok := Save(store, Table(data, Row), Bucket, Key(now), Parquet);
  }
}
