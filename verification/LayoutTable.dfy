/**
 The real path tables, row by row, and the proof that they are what the layout rewrite relies on.

 Models the tables of CLIProxyAPI/internal/config/config_v8.go: v8ClientPaths and v8SharedPaths,
 v8SharedStructPaths, v8KeyFamilies, and v8Paths and v8StructPaths as buildV8Paths derives them
 from the fields of Config; and the keys that commentUnknownV8Sections permits.
 */
module LayoutTable {
  import opened YamlTree
  import opened KeyGroups
  import opened LayoutMigration
  import opened MigrationTheorems
  import PrivateIps
  import opened PathTrie

  // ---- keys -------------------------------------------------------------------------

  const ACCESS := "access"
  const ADDR := "addr"
  const ADVERTISE_MANAGEMENT := "advertise-management"
  const AISTUDIO := "aistudio"
  const ALLOW_PRIVATE_REMOTE_IPS := "allow-private-remote-ips"
  const ALLOW_REMOTE := "allow-remote"
  const ANTHROPIC_BETA_APPEND := "anthropic-beta-append"
  const ANTHROPIC_BETA_STRIP := "anthropic-beta-strip"
  const ANTIGRAVITY := "antigravity"
  const ANTIGRAVITY_CREDITS := "antigravity-credits"
  const ANTIGRAVITY_SIGNATURE_BYPASS_STRICT := "antigravity-signature-bypass-strict"
  const ANTIGRAVITY_SIGNATURE_CACHE_ENABLED := "antigravity-signature-cache-enabled"
  const API_KEY_POLICIES := "api-key-policies"
  const API_KEY_SECTION := "api-keys"
  const ARCH := "arch"
  const AUTH_AUTO_REFRESH_WORKERS := "auth-auto-refresh-workers"
  const AUTH_DIR := "auth-dir"
  const AUTH_REQUIRED := "auth-required"
  const AUTH_REVISION := "auth-revision"
  const BASE_URL := "base-url"
  const BETA_FEATURES := "beta-features"
  const BOOTSTRAP_RETRIES := "bootstrap-retries"
  const BUSY_RETRY_MAX := "busy-retry-max"
  const BUSY_RETRY_MIN := "busy-retry-min"
  const CATALOG := "catalog"
  const CERT := "cert"
  const CLAUDE := "claude"
  const CLAUDE_API_KEY := "claude-api-key"
  const CLAUDE_CODE := "claude-code"
  const CLAUDE_HEADER_DEFAULTS := "claude-header-defaults"
  const CLEANUP_INTERVAL := "cleanup-interval"
  const CLIENT := "client"
  const CLIENT_REQUEST_ID := "client-request-id"
  const CODEX := "codex"
  const CODEX_API_KEY := "codex-api-key"
  const CODEX_CATALOG := "codex-catalog"
  const CODEX_HEADER_DEFAULTS := "codex-header-defaults"
  const COMMERCIAL_MODE := "commercial-mode"
  const CONCURRENCY := "concurrency"
  const CONFIG_VERSION := "config-version"
  const CONFIGS := "configs"
  const CONNECTION_POOL := "connection-pool"
  const COOLDOWN := "cooldown"
  const CPA_CANCEL_BOUND := "cpa-cancel-bound"
  const CPA_HEARTBEAT_TIMEOUT := "cpa-heartbeat-timeout"
  const CREDENTIAL_CONCURRENCY := "credential-concurrency"
  const CREDENTIAL_IN_FLIGHT := "credential-in-flight"
  const CREDENTIALS := "credentials"
  const DEBUG := "debug"
  const DEFAULT := "default"
  const DEFAULT_RAW := "default-raw"
  const DEVIN := "devin"
  const DEVIN_CATALOG := "devin-catalog"
  const DIR := "dir"
  const DISABLE_AUTO_UPDATE_PANEL := "disable-auto-update-panel"
  const DISABLE_CLAUDE_CLOAK_MODE := "disable-claude-cloak-mode"
  const DISABLE_CLOAKING_MODEL_LIST := "disable-cloaking-model-list"
  const DISABLE_CODEX_CLOAKING := "disable-codex-cloaking"
  const DISABLE_CONTROL_PANEL := "disable-control-panel"
  const DISABLE_COOLING := "disable-cooling"
  const DISABLE_IMAGE_GENERATION := "disable-image-generation"
  const DISABLE_PRIVATE_REMOTE_IPS := "disable-private-remote-ips"
  const DISCOVERY := "discovery"
  const ENABLE := "enable"
  const ENABLE_APPLY_PATCH := "enable-apply-patch"
  const ENABLED := "enabled"
  const ERROR_LOGS_MAX_FILES := "error-logs-max-files"
  const EXCLUDE := "exclude"
  const EXCLUDED_MODELS := "excluded-models"
  const FILTER := "filter"
  const FORCE_MODEL_PREFIX := "force-model-prefix"
  const GEMINI := "gemini"
  const GEMINI_API_KEY := "gemini-api-key"
  const GITHUB_TOKEN := "github-token"
  const GPT_IMAGE_2_BASE_MODEL := "gpt-image-2-base-model"
  const HEADER_DEFAULTS := "header-defaults"
  const HOST := "host"
  const ICE_SERVERS := "ice-servers"
  const IDLE_CONN_TIMEOUT := "idle-conn-timeout"
  const IN_FLIGHT := "in-flight"
  const INCLUDE := "include"
  const INJECT_DIAGNOSTICS := "inject-diagnostics"
  const INJECT_X_SEARCH := "inject-x-search"
  const INTERACTIONS := "interactions"
  const INTERACTIONS_API_KEY := "interactions-api-key"
  const INTERFACES := "interfaces"
  const KEEPALIVE_SECONDS := "keepalive-seconds"
  const KEY := "key"
  const LIFECYCLE_CONFIG_REVISION := "lifecycle-config-revision"
  const LIMIT := "limit"
  const LIVE_MEDIA_RELAY := "live-media-relay"
  const LOGGING_TO_FILE := "logging-to-file"
  const LOGS := "logs"
  const LOGS_MAX_TOTAL_SIZE_MB := "logs-max-total-size-mb"
  const MANAGEMENT := "management"
  const MAX_AGGREGATE_GROUPS := "max-aggregate-groups"
  const MAX_DETAILS := "max-details"
  const MAX_IDLE_CONNS_PER_HOST := "max-idle-conns-per-host"
  const MAX_LIMIT := "max-limit"
  const MAX_PART_BYTES := "max-part-bytes"
  const MAX_PART_COUNT := "max-part-count"
  const MAX_REQUEST_BODY_BYTES := "max-request-body-bytes"
  const MAX_RETRY_CREDENTIALS := "max-retry-credentials"
  const MAX_RETRY_INTERVAL := "max-retry-interval"
  const MAX_REVISION_BYTES := "max-revision-bytes"
  const MAX_SESSIONS := "max-sessions"
  const MAX_STRING_BYTES := "max-string-bytes"
  const META := "meta"
  const META_API_KEY := "meta-api-key"
  const MODEL_ALIAS := "model-alias"
  const MODEL_LEVEL_COOLING := "model-level-cooling"
  const MODELS := "models"
  const MULTIMEDIA := "multimedia"
  const NONSTREAM_KEEPALIVE_INTERVAL := "nonstream-keepalive-interval"
  const OAUTH := "oauth"
  const OAUTH_EXCLUDED_MODELS := "oauth-excluded-models"
  const OAUTH_MODEL_ALIAS := "oauth-model-alias"
  const OAUTH_REQUEST_SCOPED_ERRORS := "oauth-request-scoped-errors"
  const OAUTH_SETTINGS := "oauth-settings"
  const OBSERVABILITY := "observability"
  const OBSERVATION_BARRIER_REVISION := "observation-barrier-revision"
  const OPENAI_COMPATIBILITY := "openai-compatibility"
  const OPTIMIZE_MULTI_AGENT_V2 := "optimize-multi-agent-v2"
  const ORPHAN_DELEGATION_COMPATIBILITY := "orphan-delegation-compatibility"
  const OS := "os"
  const OVERRIDE := "override"
  const OVERRIDE_RAW := "override-raw"
  const PACKAGE_VERSION := "package-version"
  const PANEL_GITHUB_REPOSITORY := "panel-github-repository"
  const PASSTHROUGH_HEADERS := "passthrough-headers"
  const PAYLOAD := "payload"
  const PLUGINS := "plugins"
  const PORT := "port"
  const PPROF := "pprof"
  const PROVIDERS := "providers"
  const PROXY_URL := "proxy-url"
  const PUBLIC_IP := "public-ip"
  const QUOTA_DRAIN := "quota-drain"
  const QUOTA_EXCEEDED := "quota-exceeded"
  const RECLAIM_GRACE := "reclaim-grace"
  const REDIS_USAGE_QUEUE_RETENTION_SECONDS := "redis-usage-queue-retention-seconds"
  const REFRESH_INTERVAL := "refresh-interval"
  const RELEASE_FLUSH_INTERVAL := "release-flush-interval"
  const RELEASE_MAX_BACKOFF := "release-max-backoff"
  const REMOTE_MANAGEMENT := "remote-management"
  const REQUEST_LOG := "request-log"
  const REQUEST_RETRY := "request-retry"
  const REQUEST_SCOPED_ERRORS := "request-scoped-errors"
  const REQUESTS := "requests"
  const RESPONSE_STEERING := "response-steering"
  const RETRY := "retry"
  const RUNTIME_VERSION := "runtime-version"
  const SAVE_COOLDOWN_STATUS := "save-cooldown-status"
  const SECRET_KEY := "secret-key"
  const SEND_KEEPALIVE_BEFORE_FT := "send-keepalive-before-ft"
  const SENSITIVE_WORDS := "sensitive-words"
  const SERVER := "server"
  const SERVICE_NAME := "service-name"
  const SERVICE_TYPE := "service-type"
  const SESSION_AFFINITY := "session-affinity"
  const SESSION_AFFINITY_REBIND_ON := "session-affinity-rebind-on"
  const SESSION_AFFINITY_SUBAGENTS := "session-affinity-subagents"
  const SESSION_AFFINITY_TTL := "session-affinity-ttl"
  const SESSION_DATE_PIN_DAYS := "session-date-pin-days"
  const SETTINGS := "settings"
  const SIGNATURE_BYPASS_STRICT := "signature-bypass-strict"
  const SIGNATURE_CACHE_ENABLED := "signature-cache-enabled"
  const SIGNIN_WITH_CHATGPT_IDENTIFIER := "signin-with-chatgpt-identifier"
  const SNAPSHOT_INTERVAL := "snapshot-interval"
  const STABILIZE_DEVICE_PROFILE := "stabilize-device-profile"
  const STAGING_RETENTION := "staging-retention"
  const STALE_AFTER := "stale-after"
  const STORE_AUTH := "store-auth"
  const STORE_SOURCES := "store-sources"
  const STRATEGY := "strategy"
  const STREAM_BOOTSTRAP_BUFFERING := "stream-bootstrap-buffering"
  const STREAM_BOOTSTRAP_TIMEOUT := "stream-bootstrap-timeout"
  const STREAMING := "streaming"
  const SUBTYPES := "subtypes"
  const SWITCH_PREVIEW_MODEL := "switch-preview-model"
  const SWITCH_PROJECT := "switch-project"
  const TIMEOUT := "timeout"
  const TIMEZONE := "timezone"
  const TLS := "tls"
  const TLS_HANDSHAKE_TIMEOUT_SECONDS := "tls-handshake-timeout-seconds"
  const TOOL_SEARCH := "tool-search"
  const TRANSIENT_ERROR_COOLDOWN_SECONDS := "transient-error-cooldown-seconds"
  const TRUSTED_PROXIES := "trusted-proxies"
  const TTL := "ttl"
  const UDP_PORT_MAX := "udp-port-max"
  const UDP_PORT_MIN := "udp-port-min"
  const UPSTREAM := "upstream"
  const USAGE := "usage"
  const USAGE_STATISTICS_ENABLED := "usage-statistics-enabled"
  const USER_AGENT := "user-agent"
  const VERTEX := "vertex"
  const VERTEX_API_KEY := "vertex-api-key"
  const VIDEO_RESULT_AUTH_CACHE_TTL := "video-result-auth-cache-ttl"
  const WEB_SEARCH_RESULT_CACHE := "web-search-result-cache"
  const WS_AUTH := "ws-auth"
  const XAI := "xai"
  const XAI_API_KEY := "xai-api-key"

  // ---- permitted keys -------------------------------------------------------------------

  /** The keys that v8 permits at the root: these, and the sections of the table (routing is both). */
  const ROOTS: set<string> := {MODELS, CONFIG_VERSION, API_KEY_SECTION, PLUGINS, QUOTA_EXCEEDED, CLIENT, API_KEY_POLICIES, ROUTING}

  const ROOT_NUMBERS: set<int> := {14383596, 30996335, 18381305, 16529902, 31224421, 14219886, 35158501, 16561134}

  /**
   And the keys it permits elsewhere because the structure of the configuration has them there:
   settings that live at their v8 place already, whether or not the tables move others beside them.
   */
  const EXTRAS: map<Path, set<string>> := map[
    [] := ROOTS,
    [MODELS] := {CATALOG, CODEX_CATALOG, DEVIN_CATALOG},
    [CLIENT] := {CODEX},
    [CLIENT, CODEX] := {OPTIMIZE_MULTI_AGENT_V2, ENABLE_APPLY_PATCH, WEB_SEARCH_RESULT_CACHE},
    [CLIENT, CODEX, WEB_SEARCH_RESULT_CACHE] := {ENABLED, TTL, LIMIT},
    [PLUGINS] := {ENABLED, DIR, STORE_SOURCES, STORE_AUTH, AUTH_REVISION, CONFIGS},
    [QUOTA_EXCEEDED] := {SWITCH_PROJECT, SWITCH_PREVIEW_MODEL, ANTIGRAVITY_CREDITS},
    [ROUTING] := {STRATEGY, QUOTA_DRAIN, SESSION_AFFINITY, SESSION_AFFINITY_TTL, SESSION_AFFINITY_SUBAGENTS,
      SESSION_AFFINITY_REBIND_ON},
    [ROUTING, QUOTA_DRAIN] := {REFRESH_INTERVAL, STALE_AFTER}]

  lemma RootExtras()
    ensures [] in EXTRAS && EXTRAS[[]] == ROOTS && OwnRoots(EXTRAS)
  {
  }

  lemma RootNumbers()
    ensures RootsNumbered(EXTRAS, ROOT_NUMBERS)
  {
    RootExtras();
    assert Weigh(MODELS) == 14383596;
    assert Weigh(CONFIG_VERSION) == 30996335;
    assert Weigh(API_KEY_SECTION) == 18381305;
    assert Weigh(PLUGINS) == 16529902;
    assert Weigh(QUOTA_EXCEEDED) == 31224421;
    assert Weigh(CLIENT) == 14219886;
    assert Weigh(API_KEY_POLICIES) == 35158501;
    assert Weigh(ROUTING) == 16561134;
  }

  lemma SharedPlaceNoExtra()
    ensures [OAUTH, PROVIDERS] !in EXTRAS
  {
    assert Weigh(OAUTH) == 12317812;
    assert Weigh(CLIENT) == 14219886;
    assert Weigh(MODELS) == 14383596;
    assert Weigh(PLUGINS) == 16529902;
    assert Weigh(QUOTA_EXCEEDED) == 31224421;
    assert Weigh(ROUTING) == 16561134;
  }

  // ---- moves ------------------------------------------------------------------------

  const MOVES_0: seq<Move> := [
    Move([OAUTH, PROVIDERS, CODEX, OPTIMIZE_MULTI_AGENT_V2], [CLIENT, CODEX, OPTIMIZE_MULTI_AGENT_V2]),
    Move([PROVIDERS, CODEX, OPTIMIZE_MULTI_AGENT_V2], [CLIENT, CODEX, OPTIMIZE_MULTI_AGENT_V2])]

  const MOVES_1: seq<Move> := [
    Move([CODEX, OPTIMIZE_MULTI_AGENT_V2], [CLIENT, CODEX, OPTIMIZE_MULTI_AGENT_V2]),
    Move([OAUTH, PROVIDERS, CODEX, DISABLE_CODEX_CLOAKING], [UPSTREAM, CODEX, DISABLE_CODEX_CLOAKING])]

  const MOVES_2: seq<Move> := [
    Move([OAUTH, PROVIDERS, CODEX, STREAM_BOOTSTRAP_BUFFERING], [UPSTREAM, CODEX, STREAM_BOOTSTRAP_BUFFERING]),
    Move([OAUTH, PROVIDERS, CODEX, STREAM_BOOTSTRAP_TIMEOUT], [UPSTREAM, CODEX, STREAM_BOOTSTRAP_TIMEOUT])]

  const MOVES_3: seq<Move> := [
    Move([OAUTH, PROVIDERS, CODEX, ORPHAN_DELEGATION_COMPATIBILITY], [UPSTREAM, CODEX,
         ORPHAN_DELEGATION_COMPATIBILITY]),
    Move([OAUTH, PROVIDERS, CODEX, MODEL_LEVEL_COOLING], [UPSTREAM, CODEX, MODEL_LEVEL_COOLING])]

  const MOVES_4: seq<Move> := [
    Move([OAUTH, PROVIDERS, CODEX, RESPONSE_STEERING], [UPSTREAM, CODEX, RESPONSE_STEERING]),
    Move([OAUTH, PROVIDERS, CLAUDE, MODEL_LEVEL_COOLING], [UPSTREAM, CLAUDE, MODEL_LEVEL_COOLING])]

  const MOVES_5: seq<Move> := [
    Move([OAUTH, PROVIDERS, CLAUDE, CLAUDE_CODE, DISABLE_CLOAKING_MODEL_LIST], [UPSTREAM, CLAUDE,
         DISABLE_CLOAKING_MODEL_LIST])]

  const MOVES_6: seq<Move> := [
    Move([OAUTH, PROVIDERS, CLAUDE, DISABLE_CLAUDE_CLOAK_MODE], [UPSTREAM, CLAUDE, DISABLE_CLAUDE_CLOAK_MODE])]

  const MOVES_7: seq<Move> := [
    Move([OAUTH, PROVIDERS, CLAUDE, HEADER_DEFAULTS, USER_AGENT], [UPSTREAM, CLAUDE, HEADER_DEFAULTS,
         USER_AGENT])]

  const MOVES_8: seq<Move> := [
    Move([OAUTH, PROVIDERS, CLAUDE, HEADER_DEFAULTS, PACKAGE_VERSION], [UPSTREAM, CLAUDE, HEADER_DEFAULTS,
         PACKAGE_VERSION])]

  const MOVES_9: seq<Move> := [
    Move([OAUTH, PROVIDERS, CLAUDE, HEADER_DEFAULTS, RUNTIME_VERSION], [UPSTREAM, CLAUDE, HEADER_DEFAULTS,
         RUNTIME_VERSION])]

  const MOVES_10: seq<Move> := [
    Move([OAUTH, PROVIDERS, CLAUDE, HEADER_DEFAULTS, OS], [UPSTREAM, CLAUDE, HEADER_DEFAULTS, OS])]

  const MOVES_11: seq<Move> := [
    Move([OAUTH, PROVIDERS, CLAUDE, HEADER_DEFAULTS, ARCH], [UPSTREAM, CLAUDE, HEADER_DEFAULTS, ARCH])]

  const MOVES_12: seq<Move> := [
    Move([OAUTH, PROVIDERS, CLAUDE, HEADER_DEFAULTS, TIMEOUT], [UPSTREAM, CLAUDE, HEADER_DEFAULTS, TIMEOUT])]

  const MOVES_13: seq<Move> := [
    Move([OAUTH, PROVIDERS, CLAUDE, HEADER_DEFAULTS, TIMEZONE], [UPSTREAM, CLAUDE, HEADER_DEFAULTS, TIMEZONE])]

  const MOVES_14: seq<Move> := [
    Move([OAUTH, PROVIDERS, CLAUDE, HEADER_DEFAULTS, STABILIZE_DEVICE_PROFILE], [UPSTREAM, CLAUDE,
         HEADER_DEFAULTS, STABILIZE_DEVICE_PROFILE])]

  const MOVES_15: seq<Move> := [
    Move([OAUTH, PROVIDERS, XAI, INJECT_X_SEARCH], [UPSTREAM, XAI, INJECT_X_SEARCH])]

  const MOVES_16: seq<Move> := [
    Move([MAX_REQUEST_BODY_BYTES], [SERVER, MAX_REQUEST_BODY_BYTES]),
    Move([PROXY_URL], [REQUESTS, PROXY_URL])]

  const MOVES_17: seq<Move> := [
    Move([TLS_HANDSHAKE_TIMEOUT_SECONDS], [REQUESTS, TLS_HANDSHAKE_TIMEOUT_SECONDS]),
    Move([DISABLE_IMAGE_GENERATION], [MULTIMEDIA, DISABLE_IMAGE_GENERATION])]

  const MOVES_18: seq<Move> := [
    Move([GPT_IMAGE_2_BASE_MODEL], [MULTIMEDIA, GPT_IMAGE_2_BASE_MODEL]),
    Move([VIDEO_RESULT_AUTH_CACHE_TTL], [MULTIMEDIA, VIDEO_RESULT_AUTH_CACHE_TTL])]

  const MOVES_19: seq<Move> := [
    Move([FORCE_MODEL_PREFIX], [ROUTING, FORCE_MODEL_PREFIX]),
    Move([REQUEST_LOG], [OBSERVABILITY, LOGS, REQUEST_LOG])]

  const MOVES_20: seq<Move> := [
    Move([CLAUDE_CODE, DISABLE_CLOAKING_MODEL_LIST], [UPSTREAM, CLAUDE, DISABLE_CLOAKING_MODEL_LIST]),
    Move([API_KEY_SECTION], [ACCESS, API_KEY_SECTION])]

  const MOVES_21: seq<Move> := [
    Move([PASSTHROUGH_HEADERS], [REQUESTS, PASSTHROUGH_HEADERS]),
    Move([STREAMING, KEEPALIVE_SECONDS], [REQUESTS, STREAMING, KEEPALIVE_SECONDS])]

  const MOVES_22: seq<Move> := [
    Move([STREAMING, BOOTSTRAP_RETRIES], [REQUESTS, STREAMING, BOOTSTRAP_RETRIES]),
    Move([STREAMING, SEND_KEEPALIVE_BEFORE_FT], [REQUESTS, STREAMING, SEND_KEEPALIVE_BEFORE_FT])]

  const MOVES_23: seq<Move> := [
    Move([NONSTREAM_KEEPALIVE_INTERVAL], [REQUESTS, NONSTREAM_KEEPALIVE_INTERVAL]),
    Move([HOST], [SERVER, HOST])]

  const MOVES_24: seq<Move> := [
    Move([PORT], [SERVER, PORT]),
    Move([GITHUB_TOKEN], [SERVER, GITHUB_TOKEN])]

  const MOVES_25: seq<Move> := [
    Move([TRUSTED_PROXIES], [SERVER, TRUSTED_PROXIES]),
    Move([TLS, ENABLE], [SERVER, TLS, ENABLE])]

  const MOVES_26: seq<Move> := [
    Move([TLS, CERT], [SERVER, TLS, CERT]),
    Move([TLS, KEY], [SERVER, TLS, KEY])]

  const MOVES_27: seq<Move> := [
    Move([CREDENTIAL_CONCURRENCY, LIFECYCLE_CONFIG_REVISION], [CREDENTIALS, CONCURRENCY,
         LIFECYCLE_CONFIG_REVISION]),
    Move([CREDENTIAL_CONCURRENCY, OBSERVATION_BARRIER_REVISION], [CREDENTIALS, CONCURRENCY,
         OBSERVATION_BARRIER_REVISION])]

  const MOVES_28: seq<Move> := [
    Move([CREDENTIAL_CONCURRENCY, CPA_HEARTBEAT_TIMEOUT], [CREDENTIALS, CONCURRENCY, CPA_HEARTBEAT_TIMEOUT]),
    Move([CREDENTIAL_CONCURRENCY, CPA_CANCEL_BOUND], [CREDENTIALS, CONCURRENCY, CPA_CANCEL_BOUND])]

  const MOVES_29: seq<Move> := [
    Move([CREDENTIAL_CONCURRENCY, RECLAIM_GRACE], [CREDENTIALS, CONCURRENCY, RECLAIM_GRACE]),
    Move([CREDENTIAL_CONCURRENCY, CLEANUP_INTERVAL], [CREDENTIALS, CONCURRENCY, CLEANUP_INTERVAL])]

  const MOVES_30: seq<Move> := [
    Move([CREDENTIAL_CONCURRENCY, RELEASE_FLUSH_INTERVAL], [CREDENTIALS, CONCURRENCY, RELEASE_FLUSH_INTERVAL]),
    Move([CREDENTIAL_CONCURRENCY, RELEASE_MAX_BACKOFF], [CREDENTIALS, CONCURRENCY, RELEASE_MAX_BACKOFF])]

  const MOVES_31: seq<Move> := [
    Move([CREDENTIAL_CONCURRENCY, BUSY_RETRY_MIN], [CREDENTIALS, CONCURRENCY, BUSY_RETRY_MIN]),
    Move([CREDENTIAL_CONCURRENCY, BUSY_RETRY_MAX], [CREDENTIALS, CONCURRENCY, BUSY_RETRY_MAX])]

  const MOVES_32: seq<Move> := [
    Move([CREDENTIAL_CONCURRENCY, MAX_LIMIT], [CREDENTIALS, CONCURRENCY, MAX_LIMIT]),
    Move([CREDENTIAL_IN_FLIGHT, SNAPSHOT_INTERVAL], [CREDENTIALS, IN_FLIGHT, SNAPSHOT_INTERVAL])]

  const MOVES_33: seq<Move> := [
    Move([CREDENTIAL_IN_FLIGHT, STALE_AFTER], [CREDENTIALS, IN_FLIGHT, STALE_AFTER]),
    Move([CREDENTIAL_IN_FLIGHT, MAX_PART_BYTES], [CREDENTIALS, IN_FLIGHT, MAX_PART_BYTES])]

  const MOVES_34: seq<Move> := [
    Move([CREDENTIAL_IN_FLIGHT, MAX_PART_COUNT], [CREDENTIALS, IN_FLIGHT, MAX_PART_COUNT]),
    Move([CREDENTIAL_IN_FLIGHT, MAX_REVISION_BYTES], [CREDENTIALS, IN_FLIGHT, MAX_REVISION_BYTES])]

  const MOVES_35: seq<Move> := [
    Move([CREDENTIAL_IN_FLIGHT, MAX_AGGREGATE_GROUPS], [CREDENTIALS, IN_FLIGHT, MAX_AGGREGATE_GROUPS]),
    Move([CREDENTIAL_IN_FLIGHT, MAX_DETAILS], [CREDENTIALS, IN_FLIGHT, MAX_DETAILS])]

  const MOVES_36: seq<Move> := [
    Move([CREDENTIAL_IN_FLIGHT, MAX_STRING_BYTES], [CREDENTIALS, IN_FLIGHT, MAX_STRING_BYTES]),
    Move([CREDENTIAL_IN_FLIGHT, STAGING_RETENTION], [CREDENTIALS, IN_FLIGHT, STAGING_RETENTION])]

  const MOVES_37: seq<Move> := [
    Move([REMOTE_MANAGEMENT, ALLOW_REMOTE], [MANAGEMENT, ALLOW_REMOTE]),
    Move([REMOTE_MANAGEMENT, SECRET_KEY], [MANAGEMENT, SECRET_KEY])]

  const MOVES_38: seq<Move> := [
    Move([REMOTE_MANAGEMENT, DISABLE_CONTROL_PANEL], [MANAGEMENT, DISABLE_CONTROL_PANEL]),
    Move([REMOTE_MANAGEMENT, DISABLE_AUTO_UPDATE_PANEL], [MANAGEMENT, DISABLE_AUTO_UPDATE_PANEL])]

  const MOVES_39: seq<Move> := [
    Move([REMOTE_MANAGEMENT, PANEL_GITHUB_REPOSITORY], [MANAGEMENT, PANEL_GITHUB_REPOSITORY]),
    Move([REMOTE_MANAGEMENT, BASE_URL], [MANAGEMENT, BASE_URL])]

  const MOVES_40: seq<Move> := [
    Move([AUTH_DIR], [OAUTH, AUTH_DIR]),
    Move([DEBUG], [OBSERVABILITY, LOGS, DEBUG])]

  const MOVES_41: seq<Move> := [
    Move([PPROF, ENABLE], [OBSERVABILITY, PPROF, ENABLE]),
    Move([PPROF, ADDR], [OBSERVABILITY, PPROF, ADDR])]

  const MOVES_42: seq<Move> := [
    Move([DISCOVERY, ENABLED], [SERVER, DISCOVERY, ENABLED]),
    Move([DISCOVERY, SERVICE_NAME], [SERVER, DISCOVERY, SERVICE_NAME])]

  const MOVES_43: seq<Move> := [
    Move([DISCOVERY, SERVICE_TYPE], [SERVER, DISCOVERY, SERVICE_TYPE]),
    Move([DISCOVERY, SUBTYPES], [SERVER, DISCOVERY, SUBTYPES])]

  const MOVES_44: seq<Move> := [
    Move([DISCOVERY, INTERFACES, INCLUDE], [SERVER, DISCOVERY, INTERFACES, INCLUDE]),
    Move([DISCOVERY, INTERFACES, EXCLUDE], [SERVER, DISCOVERY, INTERFACES, EXCLUDE])]

  const MOVES_45: seq<Move> := [
    Move([DISCOVERY, AUTH_REQUIRED], [SERVER, DISCOVERY, AUTH_REQUIRED]),
    Move([DISCOVERY, ADVERTISE_MANAGEMENT], [SERVER, DISCOVERY, ADVERTISE_MANAGEMENT])]

  const MOVES_46: seq<Move> := [
    Move([COMMERCIAL_MODE], [SERVER, COMMERCIAL_MODE]),
    Move([LOGGING_TO_FILE], [OBSERVABILITY, LOGS, LOGGING_TO_FILE])]

  const MOVES_47: seq<Move> := [
    Move([LOGS_MAX_TOTAL_SIZE_MB], [OBSERVABILITY, LOGS, LOGS_MAX_TOTAL_SIZE_MB]),
    Move([ERROR_LOGS_MAX_FILES], [OBSERVABILITY, LOGS, ERROR_LOGS_MAX_FILES])]

  const MOVES_48: seq<Move> := [
    Move([USAGE_STATISTICS_ENABLED], [OBSERVABILITY, USAGE, USAGE_STATISTICS_ENABLED]),
    Move([REDIS_USAGE_QUEUE_RETENTION_SECONDS], [OBSERVABILITY, USAGE, REDIS_USAGE_QUEUE_RETENTION_SECONDS])]

  const MOVES_49: seq<Move> := [
    Move([DISABLE_COOLING], [ROUTING, COOLDOWN, DISABLE_COOLING]),
    Move([SAVE_COOLDOWN_STATUS], [ROUTING, COOLDOWN, SAVE_COOLDOWN_STATUS])]

  const MOVES_50: seq<Move> := [
    Move([TRANSIENT_ERROR_COOLDOWN_SECONDS], [ROUTING, COOLDOWN, TRANSIENT_ERROR_COOLDOWN_SECONDS]),
    Move([AUTH_AUTO_REFRESH_WORKERS], [OAUTH, AUTH_AUTO_REFRESH_WORKERS])]

  const MOVES_51: seq<Move> := [
    Move([REQUEST_RETRY], [ROUTING, RETRY, REQUEST_RETRY]),
    Move([MAX_RETRY_CREDENTIALS], [ROUTING, RETRY, MAX_RETRY_CREDENTIALS])]

  const MOVES_52: seq<Move> := [
    Move([MAX_RETRY_INTERVAL], [ROUTING, RETRY, MAX_RETRY_INTERVAL]),
    Move([QUOTA_EXCEEDED, ANTIGRAVITY_CREDITS], [OAUTH, PROVIDERS, ANTIGRAVITY, ANTIGRAVITY_CREDITS])]

  const MOVES_53: seq<Move> := [
    Move([WS_AUTH], [OAUTH, PROVIDERS, AISTUDIO, WS_AUTH]),
    Move([ANTIGRAVITY_SIGNATURE_CACHE_ENABLED], [OAUTH, PROVIDERS, ANTIGRAVITY, SIGNATURE_CACHE_ENABLED])]

  const MOVES_54: seq<Move> := [
    Move([ANTIGRAVITY_SIGNATURE_BYPASS_STRICT], [OAUTH, PROVIDERS, ANTIGRAVITY, SIGNATURE_BYPASS_STRICT]),
    Move([ANTIGRAVITY, SENSITIVE_WORDS], [OAUTH, PROVIDERS, ANTIGRAVITY, SENSITIVE_WORDS])]

  const MOVES_55: seq<Move> := [
    Move([ANTIGRAVITY, CONNECTION_POOL, ENABLED], [OAUTH, PROVIDERS, ANTIGRAVITY, CONNECTION_POOL, ENABLED])]

  const MOVES_56: seq<Move> := [
    Move([ANTIGRAVITY, CONNECTION_POOL, IDLE_CONN_TIMEOUT], [OAUTH, PROVIDERS, ANTIGRAVITY, CONNECTION_POOL,
         IDLE_CONN_TIMEOUT])]

  const MOVES_57: seq<Move> := [
    Move([ANTIGRAVITY, CONNECTION_POOL, MAX_IDLE_CONNS_PER_HOST], [OAUTH, PROVIDERS, ANTIGRAVITY,
         CONNECTION_POOL, MAX_IDLE_CONNS_PER_HOST])]

  const MOVES_58: seq<Move> := [
    Move([DEVIN, SENSITIVE_WORDS], [OAUTH, PROVIDERS, DEVIN, SENSITIVE_WORDS]),
    Move([XAI, INJECT_X_SEARCH], [UPSTREAM, XAI, INJECT_X_SEARCH])]

  const MOVES_59: seq<Move> := [
    Move([CODEX, DISABLE_CODEX_CLOAKING], [UPSTREAM, CODEX, DISABLE_CODEX_CLOAKING]),
    Move([CODEX, STREAM_BOOTSTRAP_BUFFERING], [UPSTREAM, CODEX, STREAM_BOOTSTRAP_BUFFERING])]

  const MOVES_60: seq<Move> := [
    Move([CODEX, STREAM_BOOTSTRAP_TIMEOUT], [UPSTREAM, CODEX, STREAM_BOOTSTRAP_TIMEOUT]),
    Move([CODEX, ORPHAN_DELEGATION_COMPATIBILITY], [UPSTREAM, CODEX, ORPHAN_DELEGATION_COMPATIBILITY])]

  const MOVES_61: seq<Move> := [
    Move([CODEX, MODEL_LEVEL_COOLING], [UPSTREAM, CODEX, MODEL_LEVEL_COOLING])]

  const MOVES_62: seq<Move> := [
    Move([CODEX, LIVE_MEDIA_RELAY, ENABLED], [OAUTH, PROVIDERS, CODEX, LIVE_MEDIA_RELAY, ENABLED])]

  const MOVES_63: seq<Move> := [
    Move([CODEX, LIVE_MEDIA_RELAY, MAX_SESSIONS], [OAUTH, PROVIDERS, CODEX, LIVE_MEDIA_RELAY, MAX_SESSIONS])]

  const MOVES_64: seq<Move> := [
    Move([CODEX, LIVE_MEDIA_RELAY, DISABLE_PRIVATE_REMOTE_IPS], [OAUTH, PROVIDERS, CODEX, LIVE_MEDIA_RELAY,
         DISABLE_PRIVATE_REMOTE_IPS])]

  const MOVES_65: seq<Move> := [
    Move([CODEX, LIVE_MEDIA_RELAY, PUBLIC_IP], [OAUTH, PROVIDERS, CODEX, LIVE_MEDIA_RELAY, PUBLIC_IP])]

  const MOVES_66: seq<Move> := [
    Move([CODEX, LIVE_MEDIA_RELAY, UDP_PORT_MIN], [OAUTH, PROVIDERS, CODEX, LIVE_MEDIA_RELAY, UDP_PORT_MIN])]

  const MOVES_67: seq<Move> := [
    Move([CODEX, LIVE_MEDIA_RELAY, UDP_PORT_MAX], [OAUTH, PROVIDERS, CODEX, LIVE_MEDIA_RELAY, UDP_PORT_MAX])]

  const MOVES_68: seq<Move> := [
    Move([CODEX, LIVE_MEDIA_RELAY, ICE_SERVERS], [OAUTH, PROVIDERS, CODEX, LIVE_MEDIA_RELAY, ICE_SERVERS])]

  const MOVES_69: seq<Move> := [
    Move([CODEX, RESPONSE_STEERING], [UPSTREAM, CODEX, RESPONSE_STEERING]),
    Move([CODEX, SIGNIN_WITH_CHATGPT_IDENTIFIER], [OAUTH, PROVIDERS, CODEX, SIGNIN_WITH_CHATGPT_IDENTIFIER])]

  const MOVES_70: seq<Move> := [
    Move([CODEX_HEADER_DEFAULTS, USER_AGENT], [OAUTH, PROVIDERS, CODEX, HEADER_DEFAULTS, USER_AGENT]),
    Move([CODEX_HEADER_DEFAULTS, BETA_FEATURES], [OAUTH, PROVIDERS, CODEX, HEADER_DEFAULTS, BETA_FEATURES])]

  const MOVES_71: seq<Move> := [
    Move([CLAUDE, MODEL_LEVEL_COOLING], [UPSTREAM, CLAUDE, MODEL_LEVEL_COOLING]),
    Move([CLAUDE, TOOL_SEARCH], [UPSTREAM, CLAUDE, TOOL_SEARCH])]

  const MOVES_72: seq<Move> := [
    Move([CLAUDE, SESSION_DATE_PIN_DAYS], [UPSTREAM, CLAUDE, SESSION_DATE_PIN_DAYS]),
    Move([CLAUDE_HEADER_DEFAULTS, USER_AGENT], [UPSTREAM, CLAUDE, HEADER_DEFAULTS, USER_AGENT])]

  const MOVES_73: seq<Move> := [
    Move([CLAUDE_HEADER_DEFAULTS, PACKAGE_VERSION], [UPSTREAM, CLAUDE, HEADER_DEFAULTS, PACKAGE_VERSION]),
    Move([CLAUDE_HEADER_DEFAULTS, RUNTIME_VERSION], [UPSTREAM, CLAUDE, HEADER_DEFAULTS, RUNTIME_VERSION])]

  const MOVES_74: seq<Move> := [
    Move([CLAUDE_HEADER_DEFAULTS, OS], [UPSTREAM, CLAUDE, HEADER_DEFAULTS, OS]),
    Move([CLAUDE_HEADER_DEFAULTS, ARCH], [UPSTREAM, CLAUDE, HEADER_DEFAULTS, ARCH])]

  const MOVES_75: seq<Move> := [
    Move([CLAUDE_HEADER_DEFAULTS, TIMEOUT], [UPSTREAM, CLAUDE, HEADER_DEFAULTS, TIMEOUT]),
    Move([CLAUDE_HEADER_DEFAULTS, TIMEZONE], [UPSTREAM, CLAUDE, HEADER_DEFAULTS, TIMEZONE])]

  const MOVES_76: seq<Move> := [
    Move([CLAUDE_HEADER_DEFAULTS, STABILIZE_DEVICE_PROFILE], [UPSTREAM, CLAUDE, HEADER_DEFAULTS,
         STABILIZE_DEVICE_PROFILE]),
    Move([CLAUDE_HEADER_DEFAULTS, ANTHROPIC_BETA_STRIP], [UPSTREAM, CLAUDE, HEADER_DEFAULTS,
         ANTHROPIC_BETA_STRIP])]

  const MOVES_77: seq<Move> := [
    Move([CLAUDE_HEADER_DEFAULTS, ANTHROPIC_BETA_APPEND], [UPSTREAM, CLAUDE, HEADER_DEFAULTS,
         ANTHROPIC_BETA_APPEND]),
    Move([CLAUDE_HEADER_DEFAULTS, INJECT_DIAGNOSTICS], [UPSTREAM, CLAUDE, HEADER_DEFAULTS, INJECT_DIAGNOSTICS])]

  const MOVES_78: seq<Move> := [
    Move([CLAUDE_HEADER_DEFAULTS, CLIENT_REQUEST_ID], [UPSTREAM, CLAUDE, HEADER_DEFAULTS, CLIENT_REQUEST_ID]),
    Move([DISABLE_CLAUDE_CLOAK_MODE], [UPSTREAM, CLAUDE, DISABLE_CLAUDE_CLOAK_MODE])]

  const MOVES_79: seq<Move> := [
    Move([OAUTH_EXCLUDED_MODELS], [OAUTH, EXCLUDED_MODELS]),
    Move([OAUTH_MODEL_ALIAS], [OAUTH, MODEL_ALIAS])]

  const MOVES_80: seq<Move> := [
    Move([OAUTH_REQUEST_SCOPED_ERRORS], [OAUTH, REQUEST_SCOPED_ERRORS]),
    Move([OAUTH_SETTINGS], [OAUTH, SETTINGS])]

  const MOVES_81: seq<Move> := [
    Move([PAYLOAD, DEFAULT], [REQUESTS, PAYLOAD, DEFAULT]),
    Move([PAYLOAD, DEFAULT_RAW], [REQUESTS, PAYLOAD, DEFAULT_RAW])]

  const MOVES_82: seq<Move> := [
    Move([PAYLOAD, OVERRIDE], [REQUESTS, PAYLOAD, OVERRIDE]),
    Move([PAYLOAD, OVERRIDE_RAW], [REQUESTS, PAYLOAD, OVERRIDE_RAW])]

  const MOVES_83: seq<Move> := [
    Move([PAYLOAD, FILTER], [REQUESTS, PAYLOAD, FILTER])]

  const ALIASES_0: seq<Move> := MOVES_0 + MOVES_1 + MOVES_2

  const ALIASES_1: seq<Move> := MOVES_3 + MOVES_4 + MOVES_5

  const ALIASES_2: seq<Move> := MOVES_6 + MOVES_7 + MOVES_8

  const ALIASES_3: seq<Move> := MOVES_9 + MOVES_10 + MOVES_11

  const ALIASES_4: seq<Move> := MOVES_12 + MOVES_13 + MOVES_14

  const ALIASES_5: seq<Move> := MOVES_15

  const FIELDS_0: seq<Move> := MOVES_16 + MOVES_17 + MOVES_18

  const FIELDS_1: seq<Move> := MOVES_19 + MOVES_20 + MOVES_21

  const FIELDS_2: seq<Move> := MOVES_22 + MOVES_23 + MOVES_24

  const FIELDS_3: seq<Move> := MOVES_25 + MOVES_26 + MOVES_27

  const FIELDS_4: seq<Move> := MOVES_28 + MOVES_29 + MOVES_30

  const FIELDS_5: seq<Move> := MOVES_31 + MOVES_32 + MOVES_33

  const FIELDS_6: seq<Move> := MOVES_34 + MOVES_35 + MOVES_36

  const FIELDS_7: seq<Move> := MOVES_37 + MOVES_38 + MOVES_39

  const FIELDS_8: seq<Move> := MOVES_40 + MOVES_41 + MOVES_42

  const FIELDS_9: seq<Move> := MOVES_43 + MOVES_44 + MOVES_45

  const FIELDS_10: seq<Move> := MOVES_46 + MOVES_47 + MOVES_48

  const FIELDS_11: seq<Move> := MOVES_49 + MOVES_50 + MOVES_51

  const FIELDS_12: seq<Move> := MOVES_52 + MOVES_53 + MOVES_54

  const FIELDS_13: seq<Move> := MOVES_55 + MOVES_56 + MOVES_57

  const FIELDS_14: seq<Move> := MOVES_58 + MOVES_59 + MOVES_60

  const FIELDS_15: seq<Move> := MOVES_61 + MOVES_62 + MOVES_63

  const FIELDS_16: seq<Move> := MOVES_64 + MOVES_65 + MOVES_66

  const FIELDS_17: seq<Move> := MOVES_67 + MOVES_68 + MOVES_69

  const FIELDS_18: seq<Move> := MOVES_70 + MOVES_71 + MOVES_72

  const FIELDS_19: seq<Move> := MOVES_73 + MOVES_74 + MOVES_75

  const FIELDS_20: seq<Move> := MOVES_76 + MOVES_77 + MOVES_78

  const FIELDS_21: seq<Move> := MOVES_79 + MOVES_80 + MOVES_81

  const FIELDS_22: seq<Move> := MOVES_82 + MOVES_83

  const ALIASES: seq<Move> := ALIASES_0 + ALIASES_1 + ALIASES_2 + ALIASES_3 + ALIASES_4 + ALIASES_5

  const FIELDS: seq<Move> := FIELDS_0 + FIELDS_1 + FIELDS_2 + FIELDS_3 + FIELDS_4 + FIELDS_5 + FIELDS_6 + FIELDS_7 + FIELDS_8 + FIELDS_9 + FIELDS_10 + FIELDS_11 + FIELDS_12 + FIELDS_13 + FIELDS_14 + FIELDS_15 + FIELDS_16 + FIELDS_17 + FIELDS_18 + FIELDS_19 + FIELDS_20 + FIELDS_21 + FIELDS_22

  const STRUCTS: seq<Move> := [
    Move([CLAUDE_CODE], [UPSTREAM, CLAUDE]),
    Move([STREAMING], [REQUESTS, STREAMING]),
    Move([TLS], [SERVER, TLS]),
    Move([CREDENTIAL_CONCURRENCY], [CREDENTIALS, CONCURRENCY]),
    Move([CREDENTIAL_IN_FLIGHT], [CREDENTIALS, IN_FLIGHT]),
    Move([REMOTE_MANAGEMENT], [MANAGEMENT]),
    Move([PPROF], [OBSERVABILITY, PPROF]),
    Move([DISCOVERY], [SERVER, DISCOVERY]),
    Move([DISCOVERY, INTERFACES], [SERVER, DISCOVERY, INTERFACES]),
    Move([ANTIGRAVITY], [OAUTH, PROVIDERS, ANTIGRAVITY]),
    Move([ANTIGRAVITY, CONNECTION_POOL], [OAUTH, PROVIDERS, ANTIGRAVITY, CONNECTION_POOL]),
    Move([DEVIN], [OAUTH, PROVIDERS, DEVIN]),
    Move([XAI], [UPSTREAM, XAI]),
    Move([CODEX], [OAUTH, PROVIDERS, CODEX]),
    Move([CODEX, LIVE_MEDIA_RELAY], [OAUTH, PROVIDERS, CODEX, LIVE_MEDIA_RELAY]),
    Move([CODEX_HEADER_DEFAULTS], [OAUTH, PROVIDERS, CODEX, HEADER_DEFAULTS]),
    Move([CLAUDE], [UPSTREAM, CLAUDE]),
    Move([CLAUDE_HEADER_DEFAULTS], [UPSTREAM, CLAUDE, HEADER_DEFAULTS]),
    Move([PAYLOAD], [REQUESTS, PAYLOAD])]

  const SHARED_STRUCTS: seq<Move> := [
    Move([OAUTH, PROVIDERS, CLAUDE, HEADER_DEFAULTS], [UPSTREAM, CLAUDE, HEADER_DEFAULTS]),
    Move([OAUTH, PROVIDERS, CLAUDE, CLAUDE_CODE], [UPSTREAM, CLAUDE]),
    Move([OAUTH, PROVIDERS, CLAUDE], [UPSTREAM, CLAUDE]),
    Move([OAUTH, PROVIDERS, XAI], [UPSTREAM, XAI])]

  const FAMILIES: seq<Family> := [
    Family(Move([GEMINI_API_KEY], [API_KEY_SECTION, GEMINI]), GEMINI),
    Family(Move([INTERACTIONS_API_KEY], [API_KEY_SECTION, INTERACTIONS]), INTERACTIONS),
    Family(Move([VERTEX_API_KEY], [API_KEY_SECTION, VERTEX]), VERTEX),
    Family(Move([CODEX_API_KEY], [API_KEY_SECTION, CODEX]), CODEX),
    Family(Move([CLAUDE_API_KEY], [API_KEY_SECTION, CLAUDE]), CLAUDE),
    Family(Move([XAI_API_KEY], [API_KEY_SECTION, XAI]), XAI),
    Family(Move([META_API_KEY], [API_KEY_SECTION, META]), META),
    Family(Move([OPENAI_COMPATIBILITY], [API_KEY_SECTION, OPENAI_COMPATIBILITY]), OPENAI_COMPATIBILITY)]

  // ---- all spellings at once ---------------------------------------------------------

  /**
   Every spelling of the tables, by the numbers of its keys: old leaves are numbered by move, those
   of v8 by setting, and a branch is true if it belongs to v8.
   */
  const TRIE: Trie :=
    Branch(true, Kid(Kid(Kid(Kid(Kid(Kid(Kid(End, 8206828, Branch(false, Kid(Kid(End, 8060133, Leaf(Old(42)), End),
    10025586, Leaf(Old(41)), Kid(End, 14250732, Leaf(Old(40)), End))), End), 8271073, Branch(false, Kid(End,
    33191011, Leaf(Old(103)), End)), End), 10107507, Leaf(Old(36)), Kid(End, 10238578, Leaf(Old(37)), End)),
    12123237, Branch(false, Kid(Kid(Kid(Kid(End, 35339489, Branch(false, Kid(Kid(Kid(Kid(End, 16347749,
    Leaf(Old(109)), End), 20723817, Leaf(Old(112)), End), 24803826, Leaf(Old(115)), Kid(End, 26966510,
    Leaf(Old(110)), End)), 27096937, Leaf(Old(113)), Kid(Kid(End, 27098209, Leaf(Old(114)), End), 51935728,
    Leaf(Old(2000)), Kid(End, 56179184, Leaf(Old(111)), End)))), End), 37532654, Leaf(Old(116)), End), 41645038,
    Leaf(Old(108)), Kid(End, 47789038, Leaf(Old(104)), End)), 50059638, Leaf(Old(2)), Kid(Kid(Kid(End, 52230773,
    Leaf(Old(106)), End), 56423406, Leaf(Old(105)), End), 64813413, Leaf(Old(117)), Kid(End, 66845940,
    Leaf(Old(107)), End)))), Kid(Kid(Kid(End, 12137461, Leaf(Old(70)), End), 12138345, Branch(false, Kid(End,
    33356260, Leaf(Old(102)), End)), End), 12317812, Branch(true, Kid(Kid(Kid(End, 18381161, Leaf(New(69)), End),
    18676199, Leaf(New(139)), Kid(End, 20724210, Branch(true, Kid(Kid(Kid(End, 8271073, Branch(false, Kid(End,
    33191011, Leaf(Old(20)), End)), End), 12123237, Branch(true, Kid(Kid(Kid(Kid(End, 33176052, Branch(true,
    Kid(Kid(End, 22903406, Leaf(New(118)), End), 28883429, Leaf(New(119)), End)), End), 35339489, Branch(true,
    Kid(Kid(Kid(End, 16347749, Leaf(New(109)), End), 20723817, Leaf(New(112)), Kid(End, 24803826, Leaf(New(115)),
    End)), 26966510, Leaf(New(110)), Kid(Kid(End, 27096937, Leaf(New(113)), End), 27098209, Leaf(New(114)), Kid(End,
    56179184, Leaf(New(111)), End)))), End), 37532654, Leaf(Old(8)), Kid(Kid(End, 41645038, Leaf(Old(7)), End),
    47789038, Leaf(Old(3)), End)), 50059638, Leaf(Old(0)), Kid(Kid(Kid(End, 52230773, Leaf(Old(5)), End), 56423406,
    Leaf(Old(4)), End), 64813413, Leaf(New(117)), Kid(End, 66845940, Leaf(Old(6)), End)))), Kid(End, 12138345,
    Branch(true, Kid(End, 33356260, Leaf(New(102)), End)), End)), 14217956, Branch(false, Kid(Kid(Kid(End, 24703716,
    Branch(false, Kid(End, 58276467, Leaf(Old(10)), End)), End), 33176052, Branch(false, Kid(Kid(Kid(Kid(End,
    6027759, Leaf(Old(15)), End), 9991267, Leaf(Old(16)), End), 16595573, Leaf(Old(17)), Kid(End, 18690798,
    Leaf(Old(18)), End)), 22903406, Leaf(Old(12)), Kid(Kid(End, 33306479, Leaf(Old(13)), End), 33339247,
    Leaf(Old(14)), Kid(End, 52228844, Leaf(Old(19)), End)))), End), 41645038, Leaf(Old(9)), Kid(End, 54080228,
    Leaf(Old(11)), End))), Kid(Kid(End, 18380777, Branch(true, Kid(End, 16643188, Leaf(New(95)), End)), End),
    24673524, Branch(true, Kid(Kid(Kid(End, 33093231, Branch(true, Kid(Kid(End, 16347749, Leaf(New(99)), End),
    37386869, Leaf(New(100)), Kid(End, 50035315, Leaf(New(101)), End))), End), 33356260, Leaf(New(98)), End),
    41449972, Leaf(New(94)), Kid(Kid(End, 50131557, Leaf(New(96)), End), 50133603, Leaf(New(97)), End))), End))),
    End)), 24869345, Leaf(New(137)), Kid(Kid(End, 33126892, Leaf(New(136)), End), 45922802, Leaf(New(138)), Kid(End,
    54032882, Leaf(New(90)), End)))), Kid(End, 12333935, Branch(false, Kid(Kid(End, 9992548, Leaf(Old(72)), End),
    14250732, Leaf(Old(71)), End)), End))), 14186995, Branch(true, Kid(End, 18381305, Leaf(New(30)), End)),
    Kid(Kid(Kid(Kid(End, 14217956, Branch(false, Kid(Kid(End, 24982627, Leaf(Old(121)), End), 41645038,
    Leaf(Old(120)), Kid(End, 45939193, Leaf(Old(122)), End))), End), 14219886, Branch(true, Kid(End, 12123237,
    Branch(true, Kid(End, 50059638, Leaf(New(500)), End)), End)), End), 14481765, Branch(true, Kid(Kid(Kid(Kid(End,
    8206828, Branch(true, Kid(Kid(End, 8060133, Leaf(New(42)), End), 10025586, Leaf(New(41)), Kid(End, 14250732,
    Leaf(New(40)), End))), End), 10107507, Leaf(New(36)), End), 10238578, Leaf(New(37)), Kid(End, 20528370,
    Branch(true, Kid(Kid(Kid(End, 16347749, Leaf(New(73)), End), 18676197, Leaf(New(76)), Kid(End, 22706661,
    Branch(true, Kid(Kid(End, 16347876, Leaf(New(78)), End), 16413412, Leaf(New(77)), End)), End)), 27063021,
    Leaf(New(74)), Kid(Kid(End, 27063024, Leaf(New(75)), End), 28865125, Leaf(New(79)), Kid(End, 43547246,
    Leaf(New(80)), End)))), End)), 26867557, Leaf(New(38)), Kid(Kid(End, 33092324, Leaf(New(81)), End), 33372645,
    Leaf(New(39)), Kid(End, 47938021, Leaf(New(21)), End)))), Kid(End, 16527969, Branch(false, Kid(Kid(Kid(End,
    14268773, Leaf(Old(144)), End), 16333420, Leaf(Old(140)), End), 18608868, Leaf(Old(142)), Kid(Kid(End, 24722401,
    Leaf(Old(141)), End), 26999777, Leaf(Old(143)), End))), End)), 16561134, Branch(true, Kid(Kid(End, 12369138,
    Branch(true, Kid(Kid(End, 29146354, Leaf(New(91)), End), 39548513, Leaf(New(93)), Kid(End, 45840876,
    Leaf(New(92)), End))), End), 18413431, Branch(true, Kid(Kid(End, 33108974, Leaf(New(87)), End), 43842037,
    Leaf(New(88)), Kid(End, 69024228, Leaf(New(89)), End))), Kid(End, 39435369, Leaf(New(27)), End))),
    Kid(Kid(Kid(End, 16643188, Leaf(Old(95)), End), 18381161, Leaf(Old(69)), End), 18381305, Leaf(Old(30)), Kid(End,
    18659828, Branch(true, Kid(Kid(Kid(End, 16527969, Branch(true, Kid(Kid(Kid(End, 14268773, Leaf(New(144)), End),
    16333420, Leaf(New(140)), End), 18608868, Leaf(New(142)), Kid(Kid(End, 24722401, Leaf(New(141)), End), 26999777,
    Leaf(New(143)), End))), End), 20723314, Leaf(New(22)), Kid(End, 20771822, Branch(true, Kid(Kid(End, 37272037,
    Leaf(New(33)), End), 37419492, Leaf(New(32)), Kid(End, 52230758, Leaf(New(34)), End))), End)), 41695730,
    Leaf(New(31)), Kid(Kid(End, 60536417, Leaf(New(35)), End), 62732772, Leaf(New(23)), End))), End)))), 18708193,
    Branch(true, Kid(Kid(End, 8271073, Branch(true, Kid(End, 33191011, Leaf(New(103)), End)), End), 12123237,
    Branch(true, Kid(Kid(Kid(End, 37532654, Leaf(New(116)), End), 41645038, Leaf(New(108)), Kid(End, 47789038,
    Leaf(New(104)), End)), 52230773, Leaf(New(106)), Kid(Kid(End, 56423406, Leaf(New(105)), End), 66845940,
    Leaf(New(107)), End))), Kid(End, 14217956, Branch(true, Kid(Kid(Kid(End, 24982627, Leaf(New(121)), End),
    33176052, Branch(true, Kid(Kid(Kid(Kid(End, 6027759, Leaf(New(126)), End), 9991267, Leaf(New(127)), Kid(End,
    16595573, Leaf(New(128)), End)), 18690798, Leaf(New(129)), Kid(Kid(End, 22903406, Leaf(New(123)), End),
    33306479, Leaf(New(124)), End)), 33339247, Leaf(New(125)), Kid(Kid(Kid(End, 37286505, Leaf(New(134)), End),
    39483875, Leaf(New(133)), End), 43546729, Leaf(New(131)), Kid(Kid(End, 45642350, Leaf(New(132)), End), 52228844,
    Leaf(New(130)), End)))), Kid(End, 41645038, Leaf(New(120)), End)), 45939193, Leaf(New(122)), Kid(Kid(End,
    54080228, Leaf(New(135)), End), 58276467, Leaf(New(29)), End))), End))), Kid(Kid(Kid(Kid(Kid(End, 20528370,
    Branch(false, Kid(Kid(Kid(End, 16347749, Leaf(Old(73)), End), 18676197, Leaf(Old(76)), Kid(End, 22706661,
    Branch(false, Kid(Kid(End, 16347876, Leaf(Old(78)), End), 16413412, Leaf(Old(77)), End)), End)), 27063021,
    Leaf(Old(74)), Kid(Kid(End, 27063024, Leaf(Old(75)), End), 28865125, Leaf(Old(79)), Kid(End, 43547246,
    Leaf(Old(80)), End)))), End), 20723314, Leaf(Old(22)), End), 20724210, Branch(false, Kid(End, 12123237,
    Branch(false, Kid(End, 50059638, Leaf(Old(1)), End)), End)), Kid(End, 20771822, Branch(false, Kid(Kid(End,
    37272037, Leaf(Old(33)), End), 37419492, Leaf(Old(32)), Kid(End, 52230758, Leaf(Old(34)), End))), End)),
    22769897, Branch(true, Kid(Kid(End, 47838821, Leaf(New(25)), End), 51984239, Leaf(New(24)), Kid(End, 58570356,
    Leaf(New(26)), End))), Kid(Kid(Kid(End, 22772334, Branch(true, Kid(Kid(Kid(End, 18396786, Leaf(New(68)), End),
    22871269, Leaf(New(64)), Kid(End, 26768116, Leaf(New(63)), End)), 45692517, Leaf(New(65)), Kid(Kid(End,
    50085106, Leaf(New(67)), End), 54081125, Leaf(New(66)), End))), End), 24673524, Branch(false, Kid(Kid(End,
    33093231, Branch(false, Kid(Kid(End, 16347749, Leaf(Old(99)), End), 37386869, Leaf(Old(100)), Kid(End, 50035315,
    Leaf(Old(101)), End))), End), 33356260, Leaf(Old(98)), End)), End), 24703716, Branch(false, Kid(End, 58276467,
    Leaf(Old(29)), End)), Kid(End, 24705516, Branch(true, Kid(Kid(End, 20609640, Branch(true, Kid(Kid(Kid(Kid(End,
    24869356, Leaf(New(60)), End), 24967525, Leaf(New(55)), End), 31160805, Leaf(New(56)), Kid(End, 31160942,
    Leaf(New(57)), End)), 35355109, Leaf(New(61)), Kid(Kid(Kid(End, 37549665, Leaf(New(54)), End), 37549935,
    Leaf(New(62)), End), 39549413, Leaf(New(58)), Kid(End, 43743728, Leaf(New(59)), End)))), End), 24706275,
    Branch(true, Kid(Kid(Kid(Kid(End, 20675177, Leaf(New(53)), End), 29143779, Leaf(New(47)), End), 30979945,
    Leaf(New(51)), Kid(Kid(End, 30981217, Leaf(New(52)), End), 35189358, Leaf(New(46)), End)), 35190369,
    Leaf(New(48)), Kid(Kid(Kid(End, 41726822, Leaf(New(50)), End), 45677173, Leaf(New(45)), End), 48019041,
    Leaf(New(49)), Kid(Kid(End, 54212463, Leaf(New(43)), End), 60553071, Leaf(New(44)), End)))), End)), End))),
    24949743, Leaf(Old(28)), Kid(Kid(Kid(Kid(End, 25050341, Leaf(Old(150)), End), 26867557, Leaf(Old(38)), End),
    26967269, Leaf(Old(151)), Kid(End, 28900581, Leaf(Old(148)), End)), 29097204, Branch(true, Kid(Kid(End,
    10172903, Branch(true, Kid(Kid(Kid(End, 12137461, Leaf(New(70)), End), 24949743, Leaf(New(28)), End), 33239788,
    Leaf(New(82)), Kid(Kid(End, 43612645, Leaf(New(84)), End), 47919469, Leaf(New(83)), End))), End), 12333935,
    Branch(true, Kid(Kid(End, 9992548, Leaf(New(72)), End), 14250732, Leaf(New(71)), End)), Kid(End, 12415719,
    Branch(true, Kid(Kid(End, 52261477, Leaf(New(85)), End), 75282916, Leaf(New(86)), End)), End))), Kid(Kid(End,
    29146354, Leaf(Old(91)), End), 30996335, Leaf(New(1000)), Kid(End, 30997733, Leaf(Old(149)), End))))), 31063269,
    Leaf(Old(145)), Kid(Kid(Kid(Kid(Kid(Kid(End, 31193575, Leaf(Old(139)), End), 31224421, Branch(false, Kid(End,
    41449972, Leaf(Old(94)), End)), End), 31309029, Leaf(Old(147)), Kid(End, 33092324, Leaf(Old(81)), End)),
    33108974, Leaf(Old(87)), Kid(Kid(Kid(End, 33239788, Leaf(Old(82)), End), 33372645, Leaf(Old(39)), End),
    37485025, Leaf(Old(137)), Kid(End, 37534318, Branch(false, Kid(Kid(Kid(End, 18396786, Leaf(Old(68)), End),
    22871269, Leaf(Old(64)), Kid(End, 26768116, Leaf(Old(63)), End)), 45692517, Leaf(Old(65)), Kid(Kid(End,
    50085106, Leaf(Old(67)), End), 54081125, Leaf(Old(66)), End))), End))), 39435369, Leaf(Old(27)),
    Kid(Kid(Kid(Kid(End, 39548513, Leaf(Old(93)), End), 41695730, Leaf(Old(31)), End), 43580008, Branch(false,
    Kid(Kid(Kid(Kid(End, 24869356, Leaf(Old(60)), End), 24967525, Leaf(Old(55)), End), 31160805, Leaf(Old(56)),
    Kid(End, 31160942, Leaf(Old(57)), End)), 35355109, Leaf(Old(61)), Kid(Kid(Kid(End, 37549665, Leaf(Old(54)),
    End), 37549935, Leaf(Old(62)), End), 39549413, Leaf(Old(58)), Kid(End, 43743728, Leaf(Old(59)), End)))),
    Kid(End, 43612645, Leaf(Old(84)), End)), 43678949, Leaf(Old(146)), Kid(Kid(End, 43777268, Leaf(Old(152)), End),
    43842037, Leaf(Old(88)), Kid(End, 45677044, Branch(false, Kid(Kid(End, 22903406, Leaf(Old(118)), End), 28883429,
    Leaf(Old(119)), End)), End)))), 45840876, Leaf(Old(92)), Kid(Kid(Kid(Kid(Kid(End, 45873644, Leaf(Old(136)),
    End), 47774196, Branch(false, Kid(Kid(Kid(Kid(End, 6027759, Leaf(Old(126)), End), 9991267, Leaf(Old(127)),
    Kid(End, 16595573, Leaf(Old(128)), End)), 18690798, Leaf(Old(129)), Kid(Kid(End, 22903406, Leaf(Old(123)), End),
    33306479, Leaf(Old(124)), End)), 33339247, Leaf(Old(125)), Kid(Kid(Kid(End, 37286505, Leaf(Old(134)), End),
    39483875, Leaf(Old(133)), End), 43546729, Leaf(Old(131)), Kid(Kid(End, 45642350, Leaf(Old(132)), End), 52228844,
    Leaf(Old(130)), End)))), End), 47774947, Branch(false, Kid(Kid(Kid(Kid(End, 20675177, Leaf(Old(53)), End),
    29143779, Leaf(Old(47)), End), 30979945, Leaf(Old(51)), Kid(Kid(End, 30981217, Leaf(Old(52)), End), 35189358,
    Leaf(Old(46)), End)), 35190369, Leaf(Old(48)), Kid(Kid(Kid(End, 41726822, Leaf(Old(50)), End), 45677173,
    Leaf(Old(45)), End), 48019041, Leaf(Old(49)), Kid(Kid(End, 54212463, Leaf(Old(43)), End), 60553071,
    Leaf(Old(44)), End)))), Kid(End, 47838821, Leaf(Old(25)), End)), 47919469, Leaf(Old(83)), Kid(Kid(Kid(End,
    47938021, Leaf(Old(21)), End), 51984239, Leaf(Old(24)), End), 52261477, Leaf(Old(85)), Kid(End, 54032882,
    Leaf(Old(90)), End))), 54080228, Leaf(Old(135)), Kid(Kid(Kid(Kid(End, 58456562, Leaf(Old(138)), End), 58570356,
    Leaf(Old(26)), End), 60536417, Leaf(Old(35)), Kid(End, 62732772, Leaf(Old(23)), End)), 69024228, Leaf(Old(89)),
    Kid(Kid(End, 75002469, Leaf(Old(96)), End), 75004515, Leaf(Old(97)), Kid(End, 75282916, Leaf(Old(86)),
    End)))))))

  // ---- row by row ---------------------------------------------------------------------

  lemma Moves0Ok()
    ensures |MOVES_0| == 2 && MovesOk(TRIE, MOVES_0, 0)
  {
    MoveByCode(TRIE, MOVES_0[0], 0, Go(12317812, Go(20724210, Go(12123237, Go(50059638, Stop)))), Go(14219886,
      Go(12123237, Go(50059638, Stop))), 500);
    MoveByCode(TRIE, MOVES_0[1], 1, Go(20724210, Go(12123237, Go(50059638, Stop))), Go(14219886, Go(12123237,
      Go(50059638, Stop))), 500);
  }

  lemma Moves1Ok()
    ensures |MOVES_1| == 2 && MovesOk(TRIE, MOVES_1, 2)
  {
    MoveByCode(TRIE, MOVES_1[0], 2, Go(12123237, Go(50059638, Stop)), Go(14219886, Go(12123237, Go(50059638,
      Stop))), 500);
    MoveByCode(TRIE, MOVES_1[1], 3, Go(12317812, Go(20724210, Go(12123237, Go(47789038, Stop)))), Go(18708193,
      Go(12123237, Go(47789038, Stop))), 104);
  }

  lemma Moves2Ok()
    ensures |MOVES_2| == 2 && MovesOk(TRIE, MOVES_2, 4)
  {
    MoveByCode(TRIE, MOVES_2[0], 4, Go(12317812, Go(20724210, Go(12123237, Go(56423406, Stop)))), Go(18708193,
      Go(12123237, Go(56423406, Stop))), 105);
    MoveByCode(TRIE, MOVES_2[1], 5, Go(12317812, Go(20724210, Go(12123237, Go(52230773, Stop)))), Go(18708193,
      Go(12123237, Go(52230773, Stop))), 106);
  }

  lemma Moves3Ok()
    ensures |MOVES_3| == 2 && MovesOk(TRIE, MOVES_3, 6)
  {
    MoveByCode(TRIE, MOVES_3[0], 6, Go(12317812, Go(20724210, Go(12123237, Go(66845940, Stop)))), Go(18708193,
      Go(12123237, Go(66845940, Stop))), 107);
    MoveByCode(TRIE, MOVES_3[1], 7, Go(12317812, Go(20724210, Go(12123237, Go(41645038, Stop)))), Go(18708193,
      Go(12123237, Go(41645038, Stop))), 108);
  }

  lemma Moves4Ok()
    ensures |MOVES_4| == 2 && MovesOk(TRIE, MOVES_4, 8)
  {
    MoveByCode(TRIE, MOVES_4[0], 8, Go(12317812, Go(20724210, Go(12123237, Go(37532654, Stop)))), Go(18708193,
      Go(12123237, Go(37532654, Stop))), 116);
    MoveByCode(TRIE, MOVES_4[1], 9, Go(12317812, Go(20724210, Go(14217956, Go(41645038, Stop)))), Go(18708193,
      Go(14217956, Go(41645038, Stop))), 120);
  }

  lemma Moves5Ok()
    ensures |MOVES_5| == 1 && MovesOk(TRIE, MOVES_5, 10)
  {
    assert Weighs([OAUTH, PROVIDERS, CLAUDE, CLAUDE_CODE, DISABLE_CLOAKING_MODEL_LIST], Go(12317812, Go(20724210,
      Go(14217956, Go(24703716, Go(58276467, Stop))))));
    MoveByCode(TRIE, MOVES_5[0], 10, Go(12317812, Go(20724210, Go(14217956, Go(24703716, Go(58276467, Stop))))),
      Go(18708193, Go(14217956, Go(58276467, Stop))), 29);
  }

  lemma Moves6Ok()
    ensures |MOVES_6| == 1 && MovesOk(TRIE, MOVES_6, 11)
  {
    MoveByCode(TRIE, MOVES_6[0], 11, Go(12317812, Go(20724210, Go(14217956, Go(54080228, Stop)))), Go(18708193,
      Go(14217956, Go(54080228, Stop))), 135);
  }

  lemma Moves7Ok()
    ensures |MOVES_7| == 1 && MovesOk(TRIE, MOVES_7, 12)
  {
    assert Weighs([OAUTH, PROVIDERS, CLAUDE, HEADER_DEFAULTS, USER_AGENT], Go(12317812, Go(20724210, Go(14217956,
      Go(33176052, Go(22903406, Stop))))));
    MoveByCode(TRIE, MOVES_7[0], 12, Go(12317812, Go(20724210, Go(14217956, Go(33176052, Go(22903406, Stop))))),
      Go(18708193, Go(14217956, Go(33176052, Go(22903406, Stop)))), 123);
  }

  lemma Moves8Ok()
    ensures |MOVES_8| == 1 && MovesOk(TRIE, MOVES_8, 13)
  {
    assert Weighs([OAUTH, PROVIDERS, CLAUDE, HEADER_DEFAULTS, PACKAGE_VERSION], Go(12317812, Go(20724210,
      Go(14217956, Go(33176052, Go(33306479, Stop))))));
    MoveByCode(TRIE, MOVES_8[0], 13, Go(12317812, Go(20724210, Go(14217956, Go(33176052, Go(33306479, Stop))))),
      Go(18708193, Go(14217956, Go(33176052, Go(33306479, Stop)))), 124);
  }

  lemma Moves9Ok()
    ensures |MOVES_9| == 1 && MovesOk(TRIE, MOVES_9, 14)
  {
    assert Weighs([OAUTH, PROVIDERS, CLAUDE, HEADER_DEFAULTS, RUNTIME_VERSION], Go(12317812, Go(20724210,
      Go(14217956, Go(33176052, Go(33339247, Stop))))));
    MoveByCode(TRIE, MOVES_9[0], 14, Go(12317812, Go(20724210, Go(14217956, Go(33176052, Go(33339247, Stop))))),
      Go(18708193, Go(14217956, Go(33176052, Go(33339247, Stop)))), 125);
  }

  lemma Moves10Ok()
    ensures |MOVES_10| == 1 && MovesOk(TRIE, MOVES_10, 15)
  {
    assert Weighs([OAUTH, PROVIDERS, CLAUDE, HEADER_DEFAULTS, OS], Go(12317812, Go(20724210, Go(14217956,
      Go(33176052, Go(6027759, Stop))))));
    MoveByCode(TRIE, MOVES_10[0], 15, Go(12317812, Go(20724210, Go(14217956, Go(33176052, Go(6027759, Stop))))),
      Go(18708193, Go(14217956, Go(33176052, Go(6027759, Stop)))), 126);
  }

  lemma Moves11Ok()
    ensures |MOVES_11| == 1 && MovesOk(TRIE, MOVES_11, 16)
  {
    assert Weighs([OAUTH, PROVIDERS, CLAUDE, HEADER_DEFAULTS, ARCH], Go(12317812, Go(20724210, Go(14217956,
      Go(33176052, Go(9991267, Stop))))));
    MoveByCode(TRIE, MOVES_11[0], 16, Go(12317812, Go(20724210, Go(14217956, Go(33176052, Go(9991267, Stop))))),
      Go(18708193, Go(14217956, Go(33176052, Go(9991267, Stop)))), 127);
  }

  lemma Moves12Ok()
    ensures |MOVES_12| == 1 && MovesOk(TRIE, MOVES_12, 17)
  {
    assert Weighs([OAUTH, PROVIDERS, CLAUDE, HEADER_DEFAULTS, TIMEOUT], Go(12317812, Go(20724210, Go(14217956,
      Go(33176052, Go(16595573, Stop))))));
    MoveByCode(TRIE, MOVES_12[0], 17, Go(12317812, Go(20724210, Go(14217956, Go(33176052, Go(16595573, Stop))))),
      Go(18708193, Go(14217956, Go(33176052, Go(16595573, Stop)))), 128);
  }

  lemma Moves13Ok()
    ensures |MOVES_13| == 1 && MovesOk(TRIE, MOVES_13, 18)
  {
    assert Weighs([OAUTH, PROVIDERS, CLAUDE, HEADER_DEFAULTS, TIMEZONE], Go(12317812, Go(20724210, Go(14217956,
      Go(33176052, Go(18690798, Stop))))));
    MoveByCode(TRIE, MOVES_13[0], 18, Go(12317812, Go(20724210, Go(14217956, Go(33176052, Go(18690798, Stop))))),
      Go(18708193, Go(14217956, Go(33176052, Go(18690798, Stop)))), 129);
  }

  lemma Moves14Ok()
    ensures |MOVES_14| == 1 && MovesOk(TRIE, MOVES_14, 19)
  {
    assert Weighs([OAUTH, PROVIDERS, CLAUDE, HEADER_DEFAULTS, STABILIZE_DEVICE_PROFILE], Go(12317812, Go(20724210,
      Go(14217956, Go(33176052, Go(52228844, Stop))))));
    MoveByCode(TRIE, MOVES_14[0], 19, Go(12317812, Go(20724210, Go(14217956, Go(33176052, Go(52228844, Stop))))),
      Go(18708193, Go(14217956, Go(33176052, Go(52228844, Stop)))), 130);
  }

  lemma Moves15Ok()
    ensures |MOVES_15| == 1 && MovesOk(TRIE, MOVES_15, 20)
  {
    MoveByCode(TRIE, MOVES_15[0], 20, Go(12317812, Go(20724210, Go(8271073, Go(33191011, Stop)))), Go(18708193,
      Go(8271073, Go(33191011, Stop))), 103);
  }

  lemma Moves16Ok()
    ensures |MOVES_16| == 2 && MovesOk(TRIE, MOVES_16, 21) && FieldsOk(TRIE, MOVES_16, 21)
  {
    MoveByCode(TRIE, MOVES_16[0], 21, Go(47938021, Stop), Go(14481765, Go(47938021, Stop)), 21);
    MoveByCode(TRIE, MOVES_16[1], 22, Go(20723314, Stop), Go(18659828, Go(20723314, Stop)), 22);
  }

  lemma Moves17Ok()
    ensures |MOVES_17| == 2 && MovesOk(TRIE, MOVES_17, 23) && FieldsOk(TRIE, MOVES_17, 23)
  {
    MoveByCode(TRIE, MOVES_17[0], 23, Go(62732772, Stop), Go(18659828, Go(62732772, Stop)), 23);
    MoveByCode(TRIE, MOVES_17[1], 24, Go(51984239, Stop), Go(22769897, Go(51984239, Stop)), 24);
  }

  lemma Moves18Ok()
    ensures |MOVES_18| == 2 && MovesOk(TRIE, MOVES_18, 25) && FieldsOk(TRIE, MOVES_18, 25)
  {
    MoveByCode(TRIE, MOVES_18[0], 25, Go(47838821, Stop), Go(22769897, Go(47838821, Stop)), 25);
    MoveByCode(TRIE, MOVES_18[1], 26, Go(58570356, Stop), Go(22769897, Go(58570356, Stop)), 26);
  }

  lemma Moves19Ok()
    ensures |MOVES_19| == 2 && MovesOk(TRIE, MOVES_19, 27) && FieldsOk(TRIE, MOVES_19, 27)
  {
    MoveByCode(TRIE, MOVES_19[0], 27, Go(39435369, Stop), Go(16561134, Go(39435369, Stop)), 27);
    MoveByCode(TRIE, MOVES_19[1], 28, Go(24949743, Stop), Go(29097204, Go(10172903, Go(24949743, Stop))), 28);
  }

  lemma Moves20Ok()
    ensures |MOVES_20| == 2 && MovesOk(TRIE, MOVES_20, 29) && FieldsOk(TRIE, MOVES_20, 29)
  {
    MoveByCode(TRIE, MOVES_20[0], 29, Go(24703716, Go(58276467, Stop)), Go(18708193, Go(14217956, Go(58276467,
      Stop))), 29);
    MoveByCode(TRIE, MOVES_20[1], 30, Go(18381305, Stop), Go(14186995, Go(18381305, Stop)), 30);
  }

  lemma Moves21Ok()
    ensures |MOVES_21| == 2 && MovesOk(TRIE, MOVES_21, 31) && FieldsOk(TRIE, MOVES_21, 31)
  {
    MoveByCode(TRIE, MOVES_21[0], 31, Go(41695730, Stop), Go(18659828, Go(41695730, Stop)), 31);
    MoveByCode(TRIE, MOVES_21[1], 32, Go(20771822, Go(37419492, Stop)), Go(18659828, Go(20771822, Go(37419492,
      Stop))), 32);
  }

  lemma Moves22Ok()
    ensures |MOVES_22| == 2 && MovesOk(TRIE, MOVES_22, 33) && FieldsOk(TRIE, MOVES_22, 33)
  {
    MoveByCode(TRIE, MOVES_22[0], 33, Go(20771822, Go(37272037, Stop)), Go(18659828, Go(20771822, Go(37272037,
      Stop))), 33);
    MoveByCode(TRIE, MOVES_22[1], 34, Go(20771822, Go(52230758, Stop)), Go(18659828, Go(20771822, Go(52230758,
      Stop))), 34);
  }

  lemma Moves23Ok()
    ensures |MOVES_23| == 2 && MovesOk(TRIE, MOVES_23, 35) && FieldsOk(TRIE, MOVES_23, 35)
  {
    MoveByCode(TRIE, MOVES_23[0], 35, Go(60536417, Stop), Go(18659828, Go(60536417, Stop)), 35);
    MoveByCode(TRIE, MOVES_23[1], 36, Go(10107507, Stop), Go(14481765, Go(10107507, Stop)), 36);
  }

  lemma Moves24Ok()
    ensures |MOVES_24| == 2 && MovesOk(TRIE, MOVES_24, 37) && FieldsOk(TRIE, MOVES_24, 37)
  {
    MoveByCode(TRIE, MOVES_24[0], 37, Go(10238578, Stop), Go(14481765, Go(10238578, Stop)), 37);
    MoveByCode(TRIE, MOVES_24[1], 38, Go(26867557, Stop), Go(14481765, Go(26867557, Stop)), 38);
  }

  lemma Moves25Ok()
    ensures |MOVES_25| == 2 && MovesOk(TRIE, MOVES_25, 39) && FieldsOk(TRIE, MOVES_25, 39)
  {
    MoveByCode(TRIE, MOVES_25[0], 39, Go(33372645, Stop), Go(14481765, Go(33372645, Stop)), 39);
    MoveByCode(TRIE, MOVES_25[1], 40, Go(8206828, Go(14250732, Stop)), Go(14481765, Go(8206828, Go(14250732,
      Stop))), 40);
  }

  lemma Moves26Ok()
    ensures |MOVES_26| == 2 && MovesOk(TRIE, MOVES_26, 41) && FieldsOk(TRIE, MOVES_26, 41)
  {
    MoveByCode(TRIE, MOVES_26[0], 41, Go(8206828, Go(10025586, Stop)), Go(14481765, Go(8206828, Go(10025586,
      Stop))), 41);
    MoveByCode(TRIE, MOVES_26[1], 42, Go(8206828, Go(8060133, Stop)), Go(14481765, Go(8206828, Go(8060133,
      Stop))), 42);
  }

  lemma Moves27Ok()
    ensures |MOVES_27| == 2 && MovesOk(TRIE, MOVES_27, 43) && FieldsOk(TRIE, MOVES_27, 43)
  {
    MoveByCode(TRIE, MOVES_27[0], 43, Go(47774947, Go(54212463, Stop)), Go(24705516, Go(24706275, Go(54212463,
      Stop))), 43);
    MoveByCode(TRIE, MOVES_27[1], 44, Go(47774947, Go(60553071, Stop)), Go(24705516, Go(24706275, Go(60553071,
      Stop))), 44);
  }

  lemma Moves28Ok()
    ensures |MOVES_28| == 2 && MovesOk(TRIE, MOVES_28, 45) && FieldsOk(TRIE, MOVES_28, 45)
  {
    MoveByCode(TRIE, MOVES_28[0], 45, Go(47774947, Go(45677173, Stop)), Go(24705516, Go(24706275, Go(45677173,
      Stop))), 45);
    MoveByCode(TRIE, MOVES_28[1], 46, Go(47774947, Go(35189358, Stop)), Go(24705516, Go(24706275, Go(35189358,
      Stop))), 46);
  }

  lemma Moves29Ok()
    ensures |MOVES_29| == 2 && MovesOk(TRIE, MOVES_29, 47) && FieldsOk(TRIE, MOVES_29, 47)
  {
    MoveByCode(TRIE, MOVES_29[0], 47, Go(47774947, Go(29143779, Stop)), Go(24705516, Go(24706275, Go(29143779,
      Stop))), 47);
    MoveByCode(TRIE, MOVES_29[1], 48, Go(47774947, Go(35190369, Stop)), Go(24705516, Go(24706275, Go(35190369,
      Stop))), 48);
  }

  lemma Moves30Ok()
    ensures |MOVES_30| == 2 && MovesOk(TRIE, MOVES_30, 49) && FieldsOk(TRIE, MOVES_30, 49)
  {
    MoveByCode(TRIE, MOVES_30[0], 49, Go(47774947, Go(48019041, Stop)), Go(24705516, Go(24706275, Go(48019041,
      Stop))), 49);
    MoveByCode(TRIE, MOVES_30[1], 50, Go(47774947, Go(41726822, Stop)), Go(24705516, Go(24706275, Go(41726822,
      Stop))), 50);
  }

  lemma Moves31Ok()
    ensures |MOVES_31| == 2 && MovesOk(TRIE, MOVES_31, 51) && FieldsOk(TRIE, MOVES_31, 51)
  {
    MoveByCode(TRIE, MOVES_31[0], 51, Go(47774947, Go(30979945, Stop)), Go(24705516, Go(24706275, Go(30979945,
      Stop))), 51);
    MoveByCode(TRIE, MOVES_31[1], 52, Go(47774947, Go(30981217, Stop)), Go(24705516, Go(24706275, Go(30981217,
      Stop))), 52);
  }

  lemma Moves32Ok()
    ensures |MOVES_32| == 2 && MovesOk(TRIE, MOVES_32, 53) && FieldsOk(TRIE, MOVES_32, 53)
  {
    MoveByCode(TRIE, MOVES_32[0], 53, Go(47774947, Go(20675177, Stop)), Go(24705516, Go(24706275, Go(20675177,
      Stop))), 53);
    MoveByCode(TRIE, MOVES_32[1], 54, Go(43580008, Go(37549665, Stop)), Go(24705516, Go(20609640, Go(37549665,
      Stop))), 54);
  }

  lemma Moves33Ok()
    ensures |MOVES_33| == 2 && MovesOk(TRIE, MOVES_33, 55) && FieldsOk(TRIE, MOVES_33, 55)
  {
    MoveByCode(TRIE, MOVES_33[0], 55, Go(43580008, Go(24967525, Stop)), Go(24705516, Go(20609640, Go(24967525,
      Stop))), 55);
    MoveByCode(TRIE, MOVES_33[1], 56, Go(43580008, Go(31160805, Stop)), Go(24705516, Go(20609640, Go(31160805,
      Stop))), 56);
  }

  lemma Moves34Ok()
    ensures |MOVES_34| == 2 && MovesOk(TRIE, MOVES_34, 57) && FieldsOk(TRIE, MOVES_34, 57)
  {
    MoveByCode(TRIE, MOVES_34[0], 57, Go(43580008, Go(31160942, Stop)), Go(24705516, Go(20609640, Go(31160942,
      Stop))), 57);
    MoveByCode(TRIE, MOVES_34[1], 58, Go(43580008, Go(39549413, Stop)), Go(24705516, Go(20609640, Go(39549413,
      Stop))), 58);
  }

  lemma Moves35Ok()
    ensures |MOVES_35| == 2 && MovesOk(TRIE, MOVES_35, 59) && FieldsOk(TRIE, MOVES_35, 59)
  {
    MoveByCode(TRIE, MOVES_35[0], 59, Go(43580008, Go(43743728, Stop)), Go(24705516, Go(20609640, Go(43743728,
      Stop))), 59);
    MoveByCode(TRIE, MOVES_35[1], 60, Go(43580008, Go(24869356, Stop)), Go(24705516, Go(20609640, Go(24869356,
      Stop))), 60);
  }

  lemma Moves36Ok()
    ensures |MOVES_36| == 2 && MovesOk(TRIE, MOVES_36, 61) && FieldsOk(TRIE, MOVES_36, 61)
  {
    MoveByCode(TRIE, MOVES_36[0], 61, Go(43580008, Go(35355109, Stop)), Go(24705516, Go(20609640, Go(35355109,
      Stop))), 61);
    MoveByCode(TRIE, MOVES_36[1], 62, Go(43580008, Go(37549935, Stop)), Go(24705516, Go(20609640, Go(37549935,
      Stop))), 62);
  }

  lemma Moves37Ok()
    ensures |MOVES_37| == 2 && MovesOk(TRIE, MOVES_37, 63) && FieldsOk(TRIE, MOVES_37, 63)
  {
    MoveByCode(TRIE, MOVES_37[0], 63, Go(37534318, Go(26768116, Stop)), Go(22772334, Go(26768116, Stop)), 63);
    MoveByCode(TRIE, MOVES_37[1], 64, Go(37534318, Go(22871269, Stop)), Go(22772334, Go(22871269, Stop)), 64);
  }

  lemma Moves38Ok()
    ensures |MOVES_38| == 2 && MovesOk(TRIE, MOVES_38, 65) && FieldsOk(TRIE, MOVES_38, 65)
  {
    MoveByCode(TRIE, MOVES_38[0], 65, Go(37534318, Go(45692517, Stop)), Go(22772334, Go(45692517, Stop)), 65);
    MoveByCode(TRIE, MOVES_38[1], 66, Go(37534318, Go(54081125, Stop)), Go(22772334, Go(54081125, Stop)), 66);
  }

  lemma Moves39Ok()
    ensures |MOVES_39| == 2 && MovesOk(TRIE, MOVES_39, 67) && FieldsOk(TRIE, MOVES_39, 67)
  {
    MoveByCode(TRIE, MOVES_39[0], 67, Go(37534318, Go(50085106, Stop)), Go(22772334, Go(50085106, Stop)), 67);
    MoveByCode(TRIE, MOVES_39[1], 68, Go(37534318, Go(18396786, Stop)), Go(22772334, Go(18396786, Stop)), 68);
  }

  lemma Moves40Ok()
    ensures |MOVES_40| == 2 && MovesOk(TRIE, MOVES_40, 69) && FieldsOk(TRIE, MOVES_40, 69)
  {
    MoveByCode(TRIE, MOVES_40[0], 69, Go(18381161, Stop), Go(12317812, Go(18381161, Stop)), 69);
    MoveByCode(TRIE, MOVES_40[1], 70, Go(12137461, Stop), Go(29097204, Go(10172903, Go(12137461, Stop))), 70);
  }

  lemma Moves41Ok()
    ensures |MOVES_41| == 2 && MovesOk(TRIE, MOVES_41, 71) && FieldsOk(TRIE, MOVES_41, 71)
  {
    MoveByCode(TRIE, MOVES_41[0], 71, Go(12333935, Go(14250732, Stop)), Go(29097204, Go(12333935, Go(14250732,
      Stop))), 71);
    MoveByCode(TRIE, MOVES_41[1], 72, Go(12333935, Go(9992548, Stop)), Go(29097204, Go(12333935, Go(9992548,
      Stop))), 72);
  }

  lemma Moves42Ok()
    ensures |MOVES_42| == 2 && MovesOk(TRIE, MOVES_42, 73) && FieldsOk(TRIE, MOVES_42, 73)
  {
    MoveByCode(TRIE, MOVES_42[0], 73, Go(20528370, Go(16347749, Stop)), Go(14481765, Go(20528370, Go(16347749,
      Stop))), 73);
    MoveByCode(TRIE, MOVES_42[1], 74, Go(20528370, Go(27063021, Stop)), Go(14481765, Go(20528370, Go(27063021,
      Stop))), 74);
  }

  lemma Moves43Ok()
    ensures |MOVES_43| == 2 && MovesOk(TRIE, MOVES_43, 75) && FieldsOk(TRIE, MOVES_43, 75)
  {
    MoveByCode(TRIE, MOVES_43[0], 75, Go(20528370, Go(27063024, Stop)), Go(14481765, Go(20528370, Go(27063024,
      Stop))), 75);
    MoveByCode(TRIE, MOVES_43[1], 76, Go(20528370, Go(18676197, Stop)), Go(14481765, Go(20528370, Go(18676197,
      Stop))), 76);
  }

  lemma Moves44Ok()
    ensures |MOVES_44| == 2 && MovesOk(TRIE, MOVES_44, 77) && FieldsOk(TRIE, MOVES_44, 77)
  {
    MoveByCode(TRIE, MOVES_44[0], 77, Go(20528370, Go(22706661, Go(16413412, Stop))), Go(14481765, Go(20528370,
      Go(22706661, Go(16413412, Stop)))), 77);
    MoveByCode(TRIE, MOVES_44[1], 78, Go(20528370, Go(22706661, Go(16347876, Stop))), Go(14481765, Go(20528370,
      Go(22706661, Go(16347876, Stop)))), 78);
  }

  lemma Moves45Ok()
    ensures |MOVES_45| == 2 && MovesOk(TRIE, MOVES_45, 79) && FieldsOk(TRIE, MOVES_45, 79)
  {
    MoveByCode(TRIE, MOVES_45[0], 79, Go(20528370, Go(28865125, Stop)), Go(14481765, Go(20528370, Go(28865125,
      Stop))), 79);
    MoveByCode(TRIE, MOVES_45[1], 80, Go(20528370, Go(43547246, Stop)), Go(14481765, Go(20528370, Go(43547246,
      Stop))), 80);
  }

  lemma Moves46Ok()
    ensures |MOVES_46| == 2 && MovesOk(TRIE, MOVES_46, 81) && FieldsOk(TRIE, MOVES_46, 81)
  {
    MoveByCode(TRIE, MOVES_46[0], 81, Go(33092324, Stop), Go(14481765, Go(33092324, Stop)), 81);
    MoveByCode(TRIE, MOVES_46[1], 82, Go(33239788, Stop), Go(29097204, Go(10172903, Go(33239788, Stop))), 82);
  }

  lemma Moves47Ok()
    ensures |MOVES_47| == 2 && MovesOk(TRIE, MOVES_47, 83) && FieldsOk(TRIE, MOVES_47, 83)
  {
    MoveByCode(TRIE, MOVES_47[0], 83, Go(47919469, Stop), Go(29097204, Go(10172903, Go(47919469, Stop))), 83);
    MoveByCode(TRIE, MOVES_47[1], 84, Go(43612645, Stop), Go(29097204, Go(10172903, Go(43612645, Stop))), 84);
  }

  lemma Moves48Ok()
    ensures |MOVES_48| == 2 && MovesOk(TRIE, MOVES_48, 85) && FieldsOk(TRIE, MOVES_48, 85)
  {
    MoveByCode(TRIE, MOVES_48[0], 85, Go(52261477, Stop), Go(29097204, Go(12415719, Go(52261477, Stop))), 85);
    MoveByCode(TRIE, MOVES_48[1], 86, Go(75282916, Stop), Go(29097204, Go(12415719, Go(75282916, Stop))), 86);
  }

  lemma Moves49Ok()
    ensures |MOVES_49| == 2 && MovesOk(TRIE, MOVES_49, 87) && FieldsOk(TRIE, MOVES_49, 87)
  {
    MoveByCode(TRIE, MOVES_49[0], 87, Go(33108974, Stop), Go(16561134, Go(18413431, Go(33108974, Stop))), 87);
    MoveByCode(TRIE, MOVES_49[1], 88, Go(43842037, Stop), Go(16561134, Go(18413431, Go(43842037, Stop))), 88);
  }

  lemma Moves50Ok()
    ensures |MOVES_50| == 2 && MovesOk(TRIE, MOVES_50, 89) && FieldsOk(TRIE, MOVES_50, 89)
  {
    MoveByCode(TRIE, MOVES_50[0], 89, Go(69024228, Stop), Go(16561134, Go(18413431, Go(69024228, Stop))), 89);
    MoveByCode(TRIE, MOVES_50[1], 90, Go(54032882, Stop), Go(12317812, Go(54032882, Stop)), 90);
  }

  lemma Moves51Ok()
    ensures |MOVES_51| == 2 && MovesOk(TRIE, MOVES_51, 91) && FieldsOk(TRIE, MOVES_51, 91)
  {
    MoveByCode(TRIE, MOVES_51[0], 91, Go(29146354, Stop), Go(16561134, Go(12369138, Go(29146354, Stop))), 91);
    MoveByCode(TRIE, MOVES_51[1], 92, Go(45840876, Stop), Go(16561134, Go(12369138, Go(45840876, Stop))), 92);
  }

  lemma Moves52Ok()
    ensures |MOVES_52| == 2 && MovesOk(TRIE, MOVES_52, 93) && FieldsOk(TRIE, MOVES_52, 93)
  {
    MoveByCode(TRIE, MOVES_52[0], 93, Go(39548513, Stop), Go(16561134, Go(12369138, Go(39548513, Stop))), 93);
    MoveByCode(TRIE, MOVES_52[1], 94, Go(31224421, Go(41449972, Stop)), Go(12317812, Go(20724210, Go(24673524,
      Go(41449972, Stop)))), 94);
  }

  lemma Moves53Ok()
    ensures |MOVES_53| == 2 && MovesOk(TRIE, MOVES_53, 95) && FieldsOk(TRIE, MOVES_53, 95)
  {
    MoveByCode(TRIE, MOVES_53[0], 95, Go(16643188, Stop), Go(12317812, Go(20724210, Go(18380777, Go(16643188,
      Stop)))), 95);
    MoveByCode(TRIE, MOVES_53[1], 96, Go(75002469, Stop), Go(12317812, Go(20724210, Go(24673524, Go(50131557,
      Stop)))), 96);
  }

  lemma Moves54Ok()
    ensures |MOVES_54| == 2 && MovesOk(TRIE, MOVES_54, 97) && FieldsOk(TRIE, MOVES_54, 97)
  {
    MoveByCode(TRIE, MOVES_54[0], 97, Go(75004515, Stop), Go(12317812, Go(20724210, Go(24673524, Go(50133603,
      Stop)))), 97);
    MoveByCode(TRIE, MOVES_54[1], 98, Go(24673524, Go(33356260, Stop)), Go(12317812, Go(20724210, Go(24673524,
      Go(33356260, Stop)))), 98);
  }

  lemma Moves55Ok()
    ensures |MOVES_55| == 1 && MovesOk(TRIE, MOVES_55, 99) && FieldsOk(TRIE, MOVES_55, 99)
  {
    assert Weighs([OAUTH, PROVIDERS, ANTIGRAVITY, CONNECTION_POOL, ENABLED], Go(12317812, Go(20724210,
      Go(24673524, Go(33093231, Go(16347749, Stop))))));
    MoveByCode(TRIE, MOVES_55[0], 99, Go(24673524, Go(33093231, Go(16347749, Stop))), Go(12317812, Go(20724210,
      Go(24673524, Go(33093231, Go(16347749, Stop))))), 99);
  }

  lemma Moves56Ok()
    ensures |MOVES_56| == 1 && MovesOk(TRIE, MOVES_56, 100) && FieldsOk(TRIE, MOVES_56, 100)
  {
    assert Weighs([OAUTH, PROVIDERS, ANTIGRAVITY, CONNECTION_POOL, IDLE_CONN_TIMEOUT], Go(12317812, Go(20724210,
      Go(24673524, Go(33093231, Go(37386869, Stop))))));
    MoveByCode(TRIE, MOVES_56[0], 100, Go(24673524, Go(33093231, Go(37386869, Stop))), Go(12317812, Go(20724210,
      Go(24673524, Go(33093231, Go(37386869, Stop))))), 100);
  }

  lemma Moves57Ok()
    ensures |MOVES_57| == 1 && MovesOk(TRIE, MOVES_57, 101) && FieldsOk(TRIE, MOVES_57, 101)
  {
    assert Weighs([OAUTH, PROVIDERS, ANTIGRAVITY, CONNECTION_POOL, MAX_IDLE_CONNS_PER_HOST], Go(12317812,
      Go(20724210, Go(24673524, Go(33093231, Go(50035315, Stop))))));
    MoveByCode(TRIE, MOVES_57[0], 101, Go(24673524, Go(33093231, Go(50035315, Stop))), Go(12317812, Go(20724210,
      Go(24673524, Go(33093231, Go(50035315, Stop))))), 101);
  }

  lemma Moves58Ok()
    ensures |MOVES_58| == 2 && MovesOk(TRIE, MOVES_58, 102) && FieldsOk(TRIE, MOVES_58, 102)
  {
    MoveByCode(TRIE, MOVES_58[0], 102, Go(12138345, Go(33356260, Stop)), Go(12317812, Go(20724210, Go(12138345,
      Go(33356260, Stop)))), 102);
    MoveByCode(TRIE, MOVES_58[1], 103, Go(8271073, Go(33191011, Stop)), Go(18708193, Go(8271073, Go(33191011,
      Stop))), 103);
  }

  lemma Moves59Ok()
    ensures |MOVES_59| == 2 && MovesOk(TRIE, MOVES_59, 104) && FieldsOk(TRIE, MOVES_59, 104)
  {
    MoveByCode(TRIE, MOVES_59[0], 104, Go(12123237, Go(47789038, Stop)), Go(18708193, Go(12123237, Go(47789038,
      Stop))), 104);
    MoveByCode(TRIE, MOVES_59[1], 105, Go(12123237, Go(56423406, Stop)), Go(18708193, Go(12123237, Go(56423406,
      Stop))), 105);
  }

  lemma Moves60Ok()
    ensures |MOVES_60| == 2 && MovesOk(TRIE, MOVES_60, 106) && FieldsOk(TRIE, MOVES_60, 106)
  {
    MoveByCode(TRIE, MOVES_60[0], 106, Go(12123237, Go(52230773, Stop)), Go(18708193, Go(12123237, Go(52230773,
      Stop))), 106);
    MoveByCode(TRIE, MOVES_60[1], 107, Go(12123237, Go(66845940, Stop)), Go(18708193, Go(12123237, Go(66845940,
      Stop))), 107);
  }

  lemma Moves61Ok()
    ensures |MOVES_61| == 1 && MovesOk(TRIE, MOVES_61, 108) && FieldsOk(TRIE, MOVES_61, 108)
  {
    MoveByCode(TRIE, MOVES_61[0], 108, Go(12123237, Go(41645038, Stop)), Go(18708193, Go(12123237, Go(41645038,
      Stop))), 108);
  }

  lemma Moves62Ok()
    ensures |MOVES_62| == 1 && MovesOk(TRIE, MOVES_62, 109) && FieldsOk(TRIE, MOVES_62, 109)
  {
    assert Weighs([OAUTH, PROVIDERS, CODEX, LIVE_MEDIA_RELAY, ENABLED], Go(12317812, Go(20724210, Go(12123237,
      Go(35339489, Go(16347749, Stop))))));
    MoveByCode(TRIE, MOVES_62[0], 109, Go(12123237, Go(35339489, Go(16347749, Stop))), Go(12317812, Go(20724210,
      Go(12123237, Go(35339489, Go(16347749, Stop))))), 109);
  }

  lemma Moves63Ok()
    ensures |MOVES_63| == 1 && MovesOk(TRIE, MOVES_63, 110) && FieldsOk(TRIE, MOVES_63, 110)
  {
    assert Weighs([OAUTH, PROVIDERS, CODEX, LIVE_MEDIA_RELAY, MAX_SESSIONS], Go(12317812, Go(20724210,
      Go(12123237, Go(35339489, Go(26966510, Stop))))));
    MoveByCode(TRIE, MOVES_63[0], 110, Go(12123237, Go(35339489, Go(26966510, Stop))), Go(12317812, Go(20724210,
      Go(12123237, Go(35339489, Go(26966510, Stop))))), 110);
  }

  lemma Moves64Ok()
    ensures |MOVES_64| == 1 && MovesOk(TRIE, MOVES_64, 111) && FieldsOk(TRIE, MOVES_64, 111)
  {
    assert Weighs([OAUTH, PROVIDERS, CODEX, LIVE_MEDIA_RELAY, DISABLE_PRIVATE_REMOTE_IPS], Go(12317812,
      Go(20724210, Go(12123237, Go(35339489, Go(56179184, Stop))))));
    MoveByCode(TRIE, MOVES_64[0], 111, Go(12123237, Go(35339489, Go(56179184, Stop))), Go(12317812, Go(20724210,
      Go(12123237, Go(35339489, Go(56179184, Stop))))), 111);
  }

  lemma Moves65Ok()
    ensures |MOVES_65| == 1 && MovesOk(TRIE, MOVES_65, 112) && FieldsOk(TRIE, MOVES_65, 112)
  {
    assert Weighs([OAUTH, PROVIDERS, CODEX, LIVE_MEDIA_RELAY, PUBLIC_IP], Go(12317812, Go(20724210, Go(12123237,
      Go(35339489, Go(20723817, Stop))))));
    MoveByCode(TRIE, MOVES_65[0], 112, Go(12123237, Go(35339489, Go(20723817, Stop))), Go(12317812, Go(20724210,
      Go(12123237, Go(35339489, Go(20723817, Stop))))), 112);
  }

  lemma Moves66Ok()
    ensures |MOVES_66| == 1 && MovesOk(TRIE, MOVES_66, 113) && FieldsOk(TRIE, MOVES_66, 113)
  {
    assert Weighs([OAUTH, PROVIDERS, CODEX, LIVE_MEDIA_RELAY, UDP_PORT_MIN], Go(12317812, Go(20724210,
      Go(12123237, Go(35339489, Go(27096937, Stop))))));
    MoveByCode(TRIE, MOVES_66[0], 113, Go(12123237, Go(35339489, Go(27096937, Stop))), Go(12317812, Go(20724210,
      Go(12123237, Go(35339489, Go(27096937, Stop))))), 113);
  }

  lemma Moves67Ok()
    ensures |MOVES_67| == 1 && MovesOk(TRIE, MOVES_67, 114) && FieldsOk(TRIE, MOVES_67, 114)
  {
    assert Weighs([OAUTH, PROVIDERS, CODEX, LIVE_MEDIA_RELAY, UDP_PORT_MAX], Go(12317812, Go(20724210,
      Go(12123237, Go(35339489, Go(27098209, Stop))))));
    MoveByCode(TRIE, MOVES_67[0], 114, Go(12123237, Go(35339489, Go(27098209, Stop))), Go(12317812, Go(20724210,
      Go(12123237, Go(35339489, Go(27098209, Stop))))), 114);
  }

  lemma Moves68Ok()
    ensures |MOVES_68| == 1 && MovesOk(TRIE, MOVES_68, 115) && FieldsOk(TRIE, MOVES_68, 115)
  {
    assert Weighs([OAUTH, PROVIDERS, CODEX, LIVE_MEDIA_RELAY, ICE_SERVERS], Go(12317812, Go(20724210, Go(12123237,
      Go(35339489, Go(24803826, Stop))))));
    MoveByCode(TRIE, MOVES_68[0], 115, Go(12123237, Go(35339489, Go(24803826, Stop))), Go(12317812, Go(20724210,
      Go(12123237, Go(35339489, Go(24803826, Stop))))), 115);
  }

  lemma Moves69Ok()
    ensures |MOVES_69| == 2 && MovesOk(TRIE, MOVES_69, 116) && FieldsOk(TRIE, MOVES_69, 116)
  {
    MoveByCode(TRIE, MOVES_69[0], 116, Go(12123237, Go(37532654, Stop)), Go(18708193, Go(12123237, Go(37532654,
      Stop))), 116);
    MoveByCode(TRIE, MOVES_69[1], 117, Go(12123237, Go(64813413, Stop)), Go(12317812, Go(20724210, Go(12123237,
      Go(64813413, Stop)))), 117);
  }

  lemma Moves70Ok()
    ensures |MOVES_70| == 2 && MovesOk(TRIE, MOVES_70, 118) && FieldsOk(TRIE, MOVES_70, 118)
  {
    assert Weighs([OAUTH, PROVIDERS, CODEX, HEADER_DEFAULTS, USER_AGENT], Go(12317812, Go(20724210, Go(12123237,
      Go(33176052, Go(22903406, Stop))))));
    MoveByCode(TRIE, MOVES_70[0], 118, Go(45677044, Go(22903406, Stop)), Go(12317812, Go(20724210, Go(12123237,
      Go(33176052, Go(22903406, Stop))))), 118);
    assert Weighs([OAUTH, PROVIDERS, CODEX, HEADER_DEFAULTS, BETA_FEATURES], Go(12317812, Go(20724210,
      Go(12123237, Go(33176052, Go(28883429, Stop))))));
    MoveByCode(TRIE, MOVES_70[1], 119, Go(45677044, Go(28883429, Stop)), Go(12317812, Go(20724210, Go(12123237,
      Go(33176052, Go(28883429, Stop))))), 119);
  }

  lemma Moves71Ok()
    ensures |MOVES_71| == 2 && MovesOk(TRIE, MOVES_71, 120) && FieldsOk(TRIE, MOVES_71, 120)
  {
    MoveByCode(TRIE, MOVES_71[0], 120, Go(14217956, Go(41645038, Stop)), Go(18708193, Go(14217956, Go(41645038,
      Stop))), 120);
    MoveByCode(TRIE, MOVES_71[1], 121, Go(14217956, Go(24982627, Stop)), Go(18708193, Go(14217956, Go(24982627,
      Stop))), 121);
  }

  lemma Moves72Ok()
    ensures |MOVES_72| == 2 && MovesOk(TRIE, MOVES_72, 122) && FieldsOk(TRIE, MOVES_72, 122)
  {
    MoveByCode(TRIE, MOVES_72[0], 122, Go(14217956, Go(45939193, Stop)), Go(18708193, Go(14217956, Go(45939193,
      Stop))), 122);
    MoveByCode(TRIE, MOVES_72[1], 123, Go(47774196, Go(22903406, Stop)), Go(18708193, Go(14217956, Go(33176052,
      Go(22903406, Stop)))), 123);
  }

  lemma Moves73Ok()
    ensures |MOVES_73| == 2 && MovesOk(TRIE, MOVES_73, 124) && FieldsOk(TRIE, MOVES_73, 124)
  {
    MoveByCode(TRIE, MOVES_73[0], 124, Go(47774196, Go(33306479, Stop)), Go(18708193, Go(14217956, Go(33176052,
      Go(33306479, Stop)))), 124);
    MoveByCode(TRIE, MOVES_73[1], 125, Go(47774196, Go(33339247, Stop)), Go(18708193, Go(14217956, Go(33176052,
      Go(33339247, Stop)))), 125);
  }

  lemma Moves74Ok()
    ensures |MOVES_74| == 2 && MovesOk(TRIE, MOVES_74, 126) && FieldsOk(TRIE, MOVES_74, 126)
  {
    MoveByCode(TRIE, MOVES_74[0], 126, Go(47774196, Go(6027759, Stop)), Go(18708193, Go(14217956, Go(33176052,
      Go(6027759, Stop)))), 126);
    MoveByCode(TRIE, MOVES_74[1], 127, Go(47774196, Go(9991267, Stop)), Go(18708193, Go(14217956, Go(33176052,
      Go(9991267, Stop)))), 127);
  }

  lemma Moves75Ok()
    ensures |MOVES_75| == 2 && MovesOk(TRIE, MOVES_75, 128) && FieldsOk(TRIE, MOVES_75, 128)
  {
    MoveByCode(TRIE, MOVES_75[0], 128, Go(47774196, Go(16595573, Stop)), Go(18708193, Go(14217956, Go(33176052,
      Go(16595573, Stop)))), 128);
    MoveByCode(TRIE, MOVES_75[1], 129, Go(47774196, Go(18690798, Stop)), Go(18708193, Go(14217956, Go(33176052,
      Go(18690798, Stop)))), 129);
  }

  lemma Moves76Ok()
    ensures |MOVES_76| == 2 && MovesOk(TRIE, MOVES_76, 130) && FieldsOk(TRIE, MOVES_76, 130)
  {
    MoveByCode(TRIE, MOVES_76[0], 130, Go(47774196, Go(52228844, Stop)), Go(18708193, Go(14217956, Go(33176052,
      Go(52228844, Stop)))), 130);
    MoveByCode(TRIE, MOVES_76[1], 131, Go(47774196, Go(43546729, Stop)), Go(18708193, Go(14217956, Go(33176052,
      Go(43546729, Stop)))), 131);
  }

  lemma Moves77Ok()
    ensures |MOVES_77| == 2 && MovesOk(TRIE, MOVES_77, 132) && FieldsOk(TRIE, MOVES_77, 132)
  {
    MoveByCode(TRIE, MOVES_77[0], 132, Go(47774196, Go(45642350, Stop)), Go(18708193, Go(14217956, Go(33176052,
      Go(45642350, Stop)))), 132);
    MoveByCode(TRIE, MOVES_77[1], 133, Go(47774196, Go(39483875, Stop)), Go(18708193, Go(14217956, Go(33176052,
      Go(39483875, Stop)))), 133);
  }

  lemma Moves78Ok()
    ensures |MOVES_78| == 2 && MovesOk(TRIE, MOVES_78, 134) && FieldsOk(TRIE, MOVES_78, 134)
  {
    MoveByCode(TRIE, MOVES_78[0], 134, Go(47774196, Go(37286505, Stop)), Go(18708193, Go(14217956, Go(33176052,
      Go(37286505, Stop)))), 134);
    MoveByCode(TRIE, MOVES_78[1], 135, Go(54080228, Stop), Go(18708193, Go(14217956, Go(54080228, Stop))), 135);
  }

  lemma Moves79Ok()
    ensures |MOVES_79| == 2 && MovesOk(TRIE, MOVES_79, 136) && FieldsOk(TRIE, MOVES_79, 136)
  {
    MoveByCode(TRIE, MOVES_79[0], 136, Go(45873644, Stop), Go(12317812, Go(33126892, Stop)), 136);
    MoveByCode(TRIE, MOVES_79[1], 137, Go(37485025, Stop), Go(12317812, Go(24869345, Stop)), 137);
  }

  lemma Moves80Ok()
    ensures |MOVES_80| == 2 && MovesOk(TRIE, MOVES_80, 138) && FieldsOk(TRIE, MOVES_80, 138)
  {
    MoveByCode(TRIE, MOVES_80[0], 138, Go(58456562, Stop), Go(12317812, Go(45922802, Stop)), 138);
    MoveByCode(TRIE, MOVES_80[1], 139, Go(31193575, Stop), Go(12317812, Go(18676199, Stop)), 139);
  }

  lemma Moves81Ok()
    ensures |MOVES_81| == 2 && MovesOk(TRIE, MOVES_81, 140) && FieldsOk(TRIE, MOVES_81, 140)
  {
    MoveByCode(TRIE, MOVES_81[0], 140, Go(16527969, Go(16333420, Stop)), Go(18659828, Go(16527969, Go(16333420,
      Stop))), 140);
    MoveByCode(TRIE, MOVES_81[1], 141, Go(16527969, Go(24722401, Stop)), Go(18659828, Go(16527969, Go(24722401,
      Stop))), 141);
  }

  lemma Moves82Ok()
    ensures |MOVES_82| == 2 && MovesOk(TRIE, MOVES_82, 142) && FieldsOk(TRIE, MOVES_82, 142)
  {
    MoveByCode(TRIE, MOVES_82[0], 142, Go(16527969, Go(18608868, Stop)), Go(18659828, Go(16527969, Go(18608868,
      Stop))), 142);
    MoveByCode(TRIE, MOVES_82[1], 143, Go(16527969, Go(26999777, Stop)), Go(18659828, Go(16527969, Go(26999777,
      Stop))), 143);
  }

  lemma Moves83Ok()
    ensures |MOVES_83| == 1 && MovesOk(TRIE, MOVES_83, 144) && FieldsOk(TRIE, MOVES_83, 144)
  {
    MoveByCode(TRIE, MOVES_83[0], 144, Go(16527969, Go(14268773, Stop)), Go(18659828, Go(16527969, Go(14268773,
      Stop))), 144);
  }

  lemma Aliases0Ok()
    ensures |ALIASES_0| == 6 && MovesOk(TRIE, ALIASES_0, 0)
  {
    Moves0Ok();
    Moves1Ok();
    Moves2Ok();
    MovesConcat(TRIE, MOVES_0, MOVES_1, 0);
    MovesConcat(TRIE, MOVES_0 + MOVES_1, MOVES_2, 0);
  }

  lemma Aliases1Ok()
    ensures |ALIASES_1| == 5 && MovesOk(TRIE, ALIASES_1, 6)
  {
    Moves3Ok();
    Moves4Ok();
    Moves5Ok();
    MovesConcat(TRIE, MOVES_3, MOVES_4, 6);
    MovesConcat(TRIE, MOVES_3 + MOVES_4, MOVES_5, 6);
  }

  lemma Aliases2Ok()
    ensures |ALIASES_2| == 3 && MovesOk(TRIE, ALIASES_2, 11)
  {
    Moves6Ok();
    Moves7Ok();
    Moves8Ok();
    MovesConcat(TRIE, MOVES_6, MOVES_7, 11);
    MovesConcat(TRIE, MOVES_6 + MOVES_7, MOVES_8, 11);
  }

  lemma Aliases3Ok()
    ensures |ALIASES_3| == 3 && MovesOk(TRIE, ALIASES_3, 14)
  {
    Moves9Ok();
    Moves10Ok();
    Moves11Ok();
    MovesConcat(TRIE, MOVES_9, MOVES_10, 14);
    MovesConcat(TRIE, MOVES_9 + MOVES_10, MOVES_11, 14);
  }

  lemma Aliases4Ok()
    ensures |ALIASES_4| == 3 && MovesOk(TRIE, ALIASES_4, 17)
  {
    Moves12Ok();
    Moves13Ok();
    Moves14Ok();
    MovesConcat(TRIE, MOVES_12, MOVES_13, 17);
    MovesConcat(TRIE, MOVES_12 + MOVES_13, MOVES_14, 17);
  }

  lemma Aliases5Ok()
    ensures |ALIASES_5| == 1 && MovesOk(TRIE, ALIASES_5, 20)
  {
    Moves15Ok();
  }

  lemma AliasesOk()
    ensures |ALIASES| == 21 && MovesOk(TRIE, ALIASES, 0)
  {
    Aliases0Ok();
    Aliases1Ok();
    Aliases2Ok();
    Aliases3Ok();
    Aliases4Ok();
    Aliases5Ok();
    MovesConcat(TRIE, ALIASES_0, ALIASES_1, 0);
    MovesConcat(TRIE, ALIASES_0 + ALIASES_1, ALIASES_2, 0);
    MovesConcat(TRIE, ALIASES_0 + ALIASES_1 + ALIASES_2, ALIASES_3, 0);
    MovesConcat(TRIE, ALIASES_0 + ALIASES_1 + ALIASES_2 + ALIASES_3, ALIASES_4, 0);
    MovesConcat(TRIE, ALIASES_0 + ALIASES_1 + ALIASES_2 + ALIASES_3 + ALIASES_4, ALIASES_5, 0);
  }

  lemma Fields0Ok()
    ensures |FIELDS_0| == 6 && FieldsOk(TRIE, FIELDS_0, 21)
  {
    Moves16Ok();
    Moves17Ok();
    Moves18Ok();
    FieldsConcat(TRIE, MOVES_16, MOVES_17, 21);
    FieldsConcat(TRIE, MOVES_16 + MOVES_17, MOVES_18, 21);
  }

  lemma Fields1Ok()
    ensures |FIELDS_1| == 6 && FieldsOk(TRIE, FIELDS_1, 27)
  {
    Moves19Ok();
    Moves20Ok();
    Moves21Ok();
    FieldsConcat(TRIE, MOVES_19, MOVES_20, 27);
    FieldsConcat(TRIE, MOVES_19 + MOVES_20, MOVES_21, 27);
  }

  lemma Fields2Ok()
    ensures |FIELDS_2| == 6 && FieldsOk(TRIE, FIELDS_2, 33)
  {
    Moves22Ok();
    Moves23Ok();
    Moves24Ok();
    FieldsConcat(TRIE, MOVES_22, MOVES_23, 33);
    FieldsConcat(TRIE, MOVES_22 + MOVES_23, MOVES_24, 33);
  }

  lemma Fields3Ok()
    ensures |FIELDS_3| == 6 && FieldsOk(TRIE, FIELDS_3, 39)
  {
    Moves25Ok();
    Moves26Ok();
    Moves27Ok();
    FieldsConcat(TRIE, MOVES_25, MOVES_26, 39);
    FieldsConcat(TRIE, MOVES_25 + MOVES_26, MOVES_27, 39);
  }

  lemma Fields4Ok()
    ensures |FIELDS_4| == 6 && FieldsOk(TRIE, FIELDS_4, 45)
  {
    Moves28Ok();
    Moves29Ok();
    Moves30Ok();
    FieldsConcat(TRIE, MOVES_28, MOVES_29, 45);
    FieldsConcat(TRIE, MOVES_28 + MOVES_29, MOVES_30, 45);
  }

  lemma Fields5Ok()
    ensures |FIELDS_5| == 6 && FieldsOk(TRIE, FIELDS_5, 51)
  {
    Moves31Ok();
    Moves32Ok();
    Moves33Ok();
    FieldsConcat(TRIE, MOVES_31, MOVES_32, 51);
    FieldsConcat(TRIE, MOVES_31 + MOVES_32, MOVES_33, 51);
  }

  lemma Fields6Ok()
    ensures |FIELDS_6| == 6 && FieldsOk(TRIE, FIELDS_6, 57)
  {
    Moves34Ok();
    Moves35Ok();
    Moves36Ok();
    FieldsConcat(TRIE, MOVES_34, MOVES_35, 57);
    FieldsConcat(TRIE, MOVES_34 + MOVES_35, MOVES_36, 57);
  }

  lemma Fields7Ok()
    ensures |FIELDS_7| == 6 && FieldsOk(TRIE, FIELDS_7, 63)
  {
    Moves37Ok();
    Moves38Ok();
    Moves39Ok();
    FieldsConcat(TRIE, MOVES_37, MOVES_38, 63);
    FieldsConcat(TRIE, MOVES_37 + MOVES_38, MOVES_39, 63);
  }

  lemma Fields8Ok()
    ensures |FIELDS_8| == 6 && FieldsOk(TRIE, FIELDS_8, 69)
  {
    Moves40Ok();
    Moves41Ok();
    Moves42Ok();
    FieldsConcat(TRIE, MOVES_40, MOVES_41, 69);
    FieldsConcat(TRIE, MOVES_40 + MOVES_41, MOVES_42, 69);
  }

  lemma Fields9Ok()
    ensures |FIELDS_9| == 6 && FieldsOk(TRIE, FIELDS_9, 75)
  {
    Moves43Ok();
    Moves44Ok();
    Moves45Ok();
    FieldsConcat(TRIE, MOVES_43, MOVES_44, 75);
    FieldsConcat(TRIE, MOVES_43 + MOVES_44, MOVES_45, 75);
  }

  lemma Fields10Ok()
    ensures |FIELDS_10| == 6 && FieldsOk(TRIE, FIELDS_10, 81)
  {
    Moves46Ok();
    Moves47Ok();
    Moves48Ok();
    FieldsConcat(TRIE, MOVES_46, MOVES_47, 81);
    FieldsConcat(TRIE, MOVES_46 + MOVES_47, MOVES_48, 81);
  }

  lemma Fields11Ok()
    ensures |FIELDS_11| == 6 && FieldsOk(TRIE, FIELDS_11, 87)
  {
    Moves49Ok();
    Moves50Ok();
    Moves51Ok();
    FieldsConcat(TRIE, MOVES_49, MOVES_50, 87);
    FieldsConcat(TRIE, MOVES_49 + MOVES_50, MOVES_51, 87);
  }

  lemma Fields12Ok()
    ensures |FIELDS_12| == 6 && FieldsOk(TRIE, FIELDS_12, 93)
  {
    Moves52Ok();
    Moves53Ok();
    Moves54Ok();
    FieldsConcat(TRIE, MOVES_52, MOVES_53, 93);
    FieldsConcat(TRIE, MOVES_52 + MOVES_53, MOVES_54, 93);
  }

  lemma Fields13Ok()
    ensures |FIELDS_13| == 3 && FieldsOk(TRIE, FIELDS_13, 99)
  {
    Moves55Ok();
    Moves56Ok();
    Moves57Ok();
    FieldsConcat(TRIE, MOVES_55, MOVES_56, 99);
    FieldsConcat(TRIE, MOVES_55 + MOVES_56, MOVES_57, 99);
  }

  lemma Fields14Ok()
    ensures |FIELDS_14| == 6 && FieldsOk(TRIE, FIELDS_14, 102)
  {
    Moves58Ok();
    Moves59Ok();
    Moves60Ok();
    FieldsConcat(TRIE, MOVES_58, MOVES_59, 102);
    FieldsConcat(TRIE, MOVES_58 + MOVES_59, MOVES_60, 102);
  }

  lemma Fields15Ok()
    ensures |FIELDS_15| == 3 && FieldsOk(TRIE, FIELDS_15, 108)
  {
    Moves61Ok();
    Moves62Ok();
    Moves63Ok();
    FieldsConcat(TRIE, MOVES_61, MOVES_62, 108);
    FieldsConcat(TRIE, MOVES_61 + MOVES_62, MOVES_63, 108);
  }

  lemma Fields16Ok()
    ensures |FIELDS_16| == 3 && FieldsOk(TRIE, FIELDS_16, 111)
  {
    Moves64Ok();
    Moves65Ok();
    Moves66Ok();
    FieldsConcat(TRIE, MOVES_64, MOVES_65, 111);
    FieldsConcat(TRIE, MOVES_64 + MOVES_65, MOVES_66, 111);
  }

  lemma Fields17Ok()
    ensures |FIELDS_17| == 4 && FieldsOk(TRIE, FIELDS_17, 114)
  {
    Moves67Ok();
    Moves68Ok();
    Moves69Ok();
    FieldsConcat(TRIE, MOVES_67, MOVES_68, 114);
    FieldsConcat(TRIE, MOVES_67 + MOVES_68, MOVES_69, 114);
  }

  lemma Fields18Ok()
    ensures |FIELDS_18| == 6 && FieldsOk(TRIE, FIELDS_18, 118)
  {
    Moves70Ok();
    Moves71Ok();
    Moves72Ok();
    FieldsConcat(TRIE, MOVES_70, MOVES_71, 118);
    FieldsConcat(TRIE, MOVES_70 + MOVES_71, MOVES_72, 118);
  }

  lemma Fields19Ok()
    ensures |FIELDS_19| == 6 && FieldsOk(TRIE, FIELDS_19, 124)
  {
    Moves73Ok();
    Moves74Ok();
    Moves75Ok();
    FieldsConcat(TRIE, MOVES_73, MOVES_74, 124);
    FieldsConcat(TRIE, MOVES_73 + MOVES_74, MOVES_75, 124);
  }

  lemma Fields20Ok()
    ensures |FIELDS_20| == 6 && FieldsOk(TRIE, FIELDS_20, 130)
  {
    Moves76Ok();
    Moves77Ok();
    Moves78Ok();
    FieldsConcat(TRIE, MOVES_76, MOVES_77, 130);
    FieldsConcat(TRIE, MOVES_76 + MOVES_77, MOVES_78, 130);
  }

  lemma Fields21Ok()
    ensures |FIELDS_21| == 6 && FieldsOk(TRIE, FIELDS_21, 136)
  {
    Moves79Ok();
    Moves80Ok();
    Moves81Ok();
    FieldsConcat(TRIE, MOVES_79, MOVES_80, 136);
    FieldsConcat(TRIE, MOVES_79 + MOVES_80, MOVES_81, 136);
  }

  lemma Fields22Ok()
    ensures |FIELDS_22| == 3 && FieldsOk(TRIE, FIELDS_22, 142)
  {
    Moves82Ok();
    Moves83Ok();
    FieldsConcat(TRIE, MOVES_82, MOVES_83, 142);
  }

  lemma FieldsAllOk()
    ensures |FIELDS| == 124 && FieldsOk(TRIE, FIELDS, 21)
  {
    Fields0Ok();
    Fields1Ok();
    Fields2Ok();
    Fields3Ok();
    Fields4Ok();
    Fields5Ok();
    Fields6Ok();
    Fields7Ok();
    Fields8Ok();
    Fields9Ok();
    Fields10Ok();
    Fields11Ok();
    Fields12Ok();
    Fields13Ok();
    Fields14Ok();
    Fields15Ok();
    Fields16Ok();
    Fields17Ok();
    Fields18Ok();
    Fields19Ok();
    Fields20Ok();
    Fields21Ok();
    Fields22Ok();
    FieldsConcat(TRIE, FIELDS_0, FIELDS_1, 21);
    FieldsConcat(TRIE, FIELDS_0 + FIELDS_1, FIELDS_2, 21);
    FieldsConcat(TRIE, FIELDS_0 + FIELDS_1 + FIELDS_2, FIELDS_3, 21);
    FieldsConcat(TRIE, FIELDS_0 + FIELDS_1 + FIELDS_2 + FIELDS_3, FIELDS_4, 21);
    FieldsConcat(TRIE, FIELDS_0 + FIELDS_1 + FIELDS_2 + FIELDS_3 + FIELDS_4, FIELDS_5, 21);
    FieldsConcat(TRIE, FIELDS_0 + FIELDS_1 + FIELDS_2 + FIELDS_3 + FIELDS_4 + FIELDS_5, FIELDS_6, 21);
    FieldsConcat(TRIE, FIELDS_0 + FIELDS_1 + FIELDS_2 + FIELDS_3 + FIELDS_4 + FIELDS_5 + FIELDS_6, FIELDS_7, 21);
    FieldsConcat(TRIE, FIELDS_0 + FIELDS_1 + FIELDS_2 + FIELDS_3 + FIELDS_4 + FIELDS_5 + FIELDS_6 + FIELDS_7, FIELDS_8, 21);
    FieldsConcat(TRIE, FIELDS_0 + FIELDS_1 + FIELDS_2 + FIELDS_3 + FIELDS_4 + FIELDS_5 + FIELDS_6 + FIELDS_7 + FIELDS_8, FIELDS_9, 21);
    FieldsConcat(TRIE, FIELDS_0 + FIELDS_1 + FIELDS_2 + FIELDS_3 + FIELDS_4 + FIELDS_5 + FIELDS_6 + FIELDS_7 + FIELDS_8 + FIELDS_9, FIELDS_10, 21);
    FieldsConcat(TRIE, FIELDS_0 + FIELDS_1 + FIELDS_2 + FIELDS_3 + FIELDS_4 + FIELDS_5 + FIELDS_6 + FIELDS_7 + FIELDS_8 + FIELDS_9 + FIELDS_10, FIELDS_11, 21);
    FieldsConcat(TRIE, FIELDS_0 + FIELDS_1 + FIELDS_2 + FIELDS_3 + FIELDS_4 + FIELDS_5 + FIELDS_6 + FIELDS_7 + FIELDS_8 + FIELDS_9 + FIELDS_10 + FIELDS_11, FIELDS_12, 21);
    FieldsConcat(TRIE, FIELDS_0 + FIELDS_1 + FIELDS_2 + FIELDS_3 + FIELDS_4 + FIELDS_5 + FIELDS_6 + FIELDS_7 + FIELDS_8 + FIELDS_9 + FIELDS_10 + FIELDS_11 + FIELDS_12, FIELDS_13, 21);
    FieldsConcat(TRIE, FIELDS_0 + FIELDS_1 + FIELDS_2 + FIELDS_3 + FIELDS_4 + FIELDS_5 + FIELDS_6 + FIELDS_7 + FIELDS_8 + FIELDS_9 + FIELDS_10 + FIELDS_11 + FIELDS_12 + FIELDS_13, FIELDS_14, 21);
    FieldsConcat(TRIE, FIELDS_0 + FIELDS_1 + FIELDS_2 + FIELDS_3 + FIELDS_4 + FIELDS_5 + FIELDS_6 + FIELDS_7 + FIELDS_8 + FIELDS_9 + FIELDS_10 + FIELDS_11 + FIELDS_12 + FIELDS_13 + FIELDS_14, FIELDS_15, 21);
    FieldsConcat(TRIE, FIELDS_0 + FIELDS_1 + FIELDS_2 + FIELDS_3 + FIELDS_4 + FIELDS_5 + FIELDS_6 + FIELDS_7 + FIELDS_8 + FIELDS_9 + FIELDS_10 + FIELDS_11 + FIELDS_12 + FIELDS_13 + FIELDS_14 + FIELDS_15, FIELDS_16, 21);
    FieldsConcat(TRIE, FIELDS_0 + FIELDS_1 + FIELDS_2 + FIELDS_3 + FIELDS_4 + FIELDS_5 + FIELDS_6 + FIELDS_7 + FIELDS_8 + FIELDS_9 + FIELDS_10 + FIELDS_11 + FIELDS_12 + FIELDS_13 + FIELDS_14 + FIELDS_15 + FIELDS_16, FIELDS_17, 21);
    FieldsConcat(TRIE, FIELDS_0 + FIELDS_1 + FIELDS_2 + FIELDS_3 + FIELDS_4 + FIELDS_5 + FIELDS_6 + FIELDS_7 + FIELDS_8 + FIELDS_9 + FIELDS_10 + FIELDS_11 + FIELDS_12 + FIELDS_13 + FIELDS_14 + FIELDS_15 + FIELDS_16 + FIELDS_17, FIELDS_18, 21);
    FieldsConcat(TRIE, FIELDS_0 + FIELDS_1 + FIELDS_2 + FIELDS_3 + FIELDS_4 + FIELDS_5 + FIELDS_6 + FIELDS_7 + FIELDS_8 + FIELDS_9 + FIELDS_10 + FIELDS_11 + FIELDS_12 + FIELDS_13 + FIELDS_14 + FIELDS_15 + FIELDS_16 + FIELDS_17 + FIELDS_18, FIELDS_19, 21);
    FieldsConcat(TRIE, FIELDS_0 + FIELDS_1 + FIELDS_2 + FIELDS_3 + FIELDS_4 + FIELDS_5 + FIELDS_6 + FIELDS_7 + FIELDS_8 + FIELDS_9 + FIELDS_10 + FIELDS_11 + FIELDS_12 + FIELDS_13 + FIELDS_14 + FIELDS_15 + FIELDS_16 + FIELDS_17 + FIELDS_18 + FIELDS_19, FIELDS_20, 21);
    FieldsConcat(TRIE, FIELDS_0 + FIELDS_1 + FIELDS_2 + FIELDS_3 + FIELDS_4 + FIELDS_5 + FIELDS_6 + FIELDS_7 + FIELDS_8 + FIELDS_9 + FIELDS_10 + FIELDS_11 + FIELDS_12 + FIELDS_13 + FIELDS_14 + FIELDS_15 + FIELDS_16 + FIELDS_17 + FIELDS_18 + FIELDS_19 + FIELDS_20, FIELDS_21, 21);
    FieldsConcat(TRIE, FIELDS_0 + FIELDS_1 + FIELDS_2 + FIELDS_3 + FIELDS_4 + FIELDS_5 + FIELDS_6 + FIELDS_7 + FIELDS_8 + FIELDS_9 + FIELDS_10 + FIELDS_11 + FIELDS_12 + FIELDS_13 + FIELDS_14 + FIELDS_15 + FIELDS_16 + FIELDS_17 + FIELDS_18 + FIELDS_19 + FIELDS_20 + FIELDS_21, FIELDS_22, 21);
  }

  lemma Structs0Fit()
    ensures forall k | 0 <= k < 2 :: ContainerFits(TRIE, STRUCTS[k])
  {
    ContainerByCode(TRIE, STRUCTS[0], Go(24703716, Stop), Go(18708193, Go(14217956, Stop)));
    ContainerByCode(TRIE, STRUCTS[1], Go(20771822, Stop), Go(18659828, Go(20771822, Stop)));
  }

  lemma Structs1Fit()
    ensures forall k | 2 <= k < 4 :: ContainerFits(TRIE, STRUCTS[k])
  {
    ContainerByCode(TRIE, STRUCTS[2], Go(8206828, Stop), Go(14481765, Go(8206828, Stop)));
    ContainerByCode(TRIE, STRUCTS[3], Go(47774947, Stop), Go(24705516, Go(24706275, Stop)));
  }

  lemma Structs2Fit()
    ensures forall k | 4 <= k < 6 :: ContainerFits(TRIE, STRUCTS[k])
  {
    ContainerByCode(TRIE, STRUCTS[4], Go(43580008, Stop), Go(24705516, Go(20609640, Stop)));
    ContainerByCode(TRIE, STRUCTS[5], Go(37534318, Stop), Go(22772334, Stop));
  }

  lemma Structs3Fit()
    ensures forall k | 6 <= k < 8 :: ContainerFits(TRIE, STRUCTS[k])
  {
    ContainerByCode(TRIE, STRUCTS[6], Go(12333935, Stop), Go(29097204, Go(12333935, Stop)));
    ContainerByCode(TRIE, STRUCTS[7], Go(20528370, Stop), Go(14481765, Go(20528370, Stop)));
  }

  lemma Structs4Fit()
    ensures forall k | 8 <= k < 10 :: ContainerFits(TRIE, STRUCTS[k])
  {
    ContainerByCode(TRIE, STRUCTS[8], Go(20528370, Go(22706661, Stop)), Go(14481765, Go(20528370, Go(22706661,
      Stop))));
    ContainerByCode(TRIE, STRUCTS[9], Go(24673524, Stop), Go(12317812, Go(20724210, Go(24673524, Stop))));
  }

  lemma Structs5Fit()
    ensures forall k | 10 <= k < 12 :: ContainerFits(TRIE, STRUCTS[k])
  {
    ContainerByCode(TRIE, STRUCTS[10], Go(24673524, Go(33093231, Stop)), Go(12317812, Go(20724210, Go(24673524,
      Go(33093231, Stop)))));
    ContainerByCode(TRIE, STRUCTS[11], Go(12138345, Stop), Go(12317812, Go(20724210, Go(12138345, Stop))));
  }

  lemma Structs6Fit()
    ensures forall k | 12 <= k < 14 :: ContainerFits(TRIE, STRUCTS[k])
  {
    ContainerByCode(TRIE, STRUCTS[12], Go(8271073, Stop), Go(18708193, Go(8271073, Stop)));
    ContainerByCode(TRIE, STRUCTS[13], Go(12123237, Stop), Go(12317812, Go(20724210, Go(12123237, Stop))));
  }

  lemma Structs7Fit()
    ensures forall k | 14 <= k < 16 :: ContainerFits(TRIE, STRUCTS[k])
  {
    ContainerByCode(TRIE, STRUCTS[14], Go(12123237, Go(35339489, Stop)), Go(12317812, Go(20724210, Go(12123237,
      Go(35339489, Stop)))));
    ContainerByCode(TRIE, STRUCTS[15], Go(45677044, Stop), Go(12317812, Go(20724210, Go(12123237, Go(33176052,
      Stop)))));
  }

  lemma Structs8Fit()
    ensures forall k | 16 <= k < 18 :: ContainerFits(TRIE, STRUCTS[k])
  {
    ContainerByCode(TRIE, STRUCTS[16], Go(14217956, Stop), Go(18708193, Go(14217956, Stop)));
    ContainerByCode(TRIE, STRUCTS[17], Go(47774196, Stop), Go(18708193, Go(14217956, Go(33176052, Stop))));
  }

  lemma Structs9Fit()
    ensures forall k | 18 <= k < 19 :: ContainerFits(TRIE, STRUCTS[k])
  {
    ContainerByCode(TRIE, STRUCTS[18], Go(16527969, Stop), Go(18659828, Go(16527969, Stop)));
  }

  lemma SharedStructs0Fit()
    ensures forall k | 0 <= k < 2 :: ContainerFits(TRIE, SHARED_STRUCTS[k])
  {
    ContainerByCode(TRIE, SHARED_STRUCTS[0], Go(12317812, Go(20724210, Go(14217956, Go(33176052, Stop)))),
      Go(18708193, Go(14217956, Go(33176052, Stop))));
    ContainerByCode(TRIE, SHARED_STRUCTS[1], Go(12317812, Go(20724210, Go(14217956, Go(24703716, Stop)))),
      Go(18708193, Go(14217956, Stop)));
  }

  lemma SharedStructs1Fit()
    ensures forall k | 2 <= k < 4 :: ContainerFits(TRIE, SHARED_STRUCTS[k])
  {
    ContainerByCode(TRIE, SHARED_STRUCTS[2], Go(12317812, Go(20724210, Go(14217956, Stop))), Go(18708193,
      Go(14217956, Stop)));
    ContainerByCode(TRIE, SHARED_STRUCTS[3], Go(12317812, Go(20724210, Go(8271073, Stop))), Go(18708193,
      Go(8271073, Stop)));
  }

  lemma Families0Ok()
    ensures |FAMILIES| == 8 && forall k | 0 <= k < 4 :: FamilyOk(TRIE, FAMILIES[k], 145 + k)
  {
    FamilyByCode(TRIE, FAMILIES[0], 145, Go(31063269, Stop));
    FamilyByCode(TRIE, FAMILIES[1], 146, Go(43678949, Stop));
    FamilyByCode(TRIE, FAMILIES[2], 147, Go(31309029, Stop));
    FamilyByCode(TRIE, FAMILIES[3], 148, Go(28900581, Stop));
  }

  lemma Families1Ok()
    ensures |FAMILIES| == 8 && forall k | 4 <= k < 8 :: FamilyOk(TRIE, FAMILIES[k], 145 + k)
  {
    FamilyByCode(TRIE, FAMILIES[4], 149, Go(30997733, Stop));
    FamilyByCode(TRIE, FAMILIES[5], 150, Go(25050341, Stop));
    FamilyByCode(TRIE, FAMILIES[6], 151, Go(26967269, Stop));
    FamilyByCode(TRIE, FAMILIES[7], 152, Go(43777268, Stop));
  }

  lemma FamiliesOk()
    ensures |FAMILIES| == 8
    ensures forall k | 0 <= k < |FAMILIES| :: FamilyOk(TRIE, FAMILIES[k], 145 + k)
  {
    Families0Ok();
    Families1Ok();
  }

  lemma Structs0Enters()
    ensures |STRUCTS| == 19 && Enters(TRIE, EXTRAS, STRUCTS[0].legacy, 0)
  {
    RootNumbers();
    EntersByCode(TRIE, EXTRAS, ROOT_NUMBERS, STRUCTS[0].legacy, 0, [CLAUDE_CODE], Go(24703716, Stop));
  }

  lemma Structs1Enters()
    ensures |STRUCTS| == 19 && Enters(TRIE, EXTRAS, STRUCTS[1].legacy, 0)
  {
    RootNumbers();
    EntersByCode(TRIE, EXTRAS, ROOT_NUMBERS, STRUCTS[1].legacy, 0, [STREAMING], Go(20771822, Stop));
  }

  lemma Structs2Enters()
    ensures |STRUCTS| == 19 && Enters(TRIE, EXTRAS, STRUCTS[2].legacy, 0)
  {
    RootNumbers();
    EntersByCode(TRIE, EXTRAS, ROOT_NUMBERS, STRUCTS[2].legacy, 0, [TLS], Go(8206828, Stop));
  }

  lemma Structs3Enters()
    ensures |STRUCTS| == 19 && Enters(TRIE, EXTRAS, STRUCTS[3].legacy, 0)
  {
    RootNumbers();
    EntersByCode(TRIE, EXTRAS, ROOT_NUMBERS, STRUCTS[3].legacy, 0, [CREDENTIAL_CONCURRENCY], Go(47774947, Stop));
  }

  lemma Structs4Enters()
    ensures |STRUCTS| == 19 && Enters(TRIE, EXTRAS, STRUCTS[4].legacy, 0)
  {
    RootNumbers();
    EntersByCode(TRIE, EXTRAS, ROOT_NUMBERS, STRUCTS[4].legacy, 0, [CREDENTIAL_IN_FLIGHT], Go(43580008, Stop));
  }

  lemma Structs5Enters()
    ensures |STRUCTS| == 19 && Enters(TRIE, EXTRAS, STRUCTS[5].legacy, 0)
  {
    RootNumbers();
    EntersByCode(TRIE, EXTRAS, ROOT_NUMBERS, STRUCTS[5].legacy, 0, [REMOTE_MANAGEMENT], Go(37534318, Stop));
  }

  lemma Structs6Enters()
    ensures |STRUCTS| == 19 && Enters(TRIE, EXTRAS, STRUCTS[6].legacy, 0)
  {
    RootNumbers();
    EntersByCode(TRIE, EXTRAS, ROOT_NUMBERS, STRUCTS[6].legacy, 0, [PPROF], Go(12333935, Stop));
  }

  lemma Structs7Enters()
    ensures |STRUCTS| == 19 && Enters(TRIE, EXTRAS, STRUCTS[7].legacy, 0)
  {
    RootNumbers();
    EntersByCode(TRIE, EXTRAS, ROOT_NUMBERS, STRUCTS[7].legacy, 0, [DISCOVERY], Go(20528370, Stop));
  }

  lemma Structs8Enters()
    ensures |STRUCTS| == 19 && Enters(TRIE, EXTRAS, STRUCTS[8].legacy, 0)
  {
    RootNumbers();
    EntersByCode(TRIE, EXTRAS, ROOT_NUMBERS, STRUCTS[8].legacy, 0, [DISCOVERY], Go(20528370, Stop));
  }

  lemma Structs9Enters()
    ensures |STRUCTS| == 19 && Enters(TRIE, EXTRAS, STRUCTS[9].legacy, 0)
  {
    RootNumbers();
    EntersByCode(TRIE, EXTRAS, ROOT_NUMBERS, STRUCTS[9].legacy, 0, [ANTIGRAVITY], Go(24673524, Stop));
  }

  lemma Structs10Enters()
    ensures |STRUCTS| == 19 && Enters(TRIE, EXTRAS, STRUCTS[10].legacy, 0)
  {
    RootNumbers();
    EntersByCode(TRIE, EXTRAS, ROOT_NUMBERS, STRUCTS[10].legacy, 0, [ANTIGRAVITY], Go(24673524, Stop));
  }

  lemma Structs11Enters()
    ensures |STRUCTS| == 19 && Enters(TRIE, EXTRAS, STRUCTS[11].legacy, 0)
  {
    RootNumbers();
    EntersByCode(TRIE, EXTRAS, ROOT_NUMBERS, STRUCTS[11].legacy, 0, [DEVIN], Go(12138345, Stop));
  }

  lemma Structs12Enters()
    ensures |STRUCTS| == 19 && Enters(TRIE, EXTRAS, STRUCTS[12].legacy, 0)
  {
    RootNumbers();
    EntersByCode(TRIE, EXTRAS, ROOT_NUMBERS, STRUCTS[12].legacy, 0, [XAI], Go(8271073, Stop));
  }

  lemma Structs13Enters()
    ensures |STRUCTS| == 19 && Enters(TRIE, EXTRAS, STRUCTS[13].legacy, 0)
  {
    RootNumbers();
    EntersByCode(TRIE, EXTRAS, ROOT_NUMBERS, STRUCTS[13].legacy, 0, [CODEX], Go(12123237, Stop));
  }

  lemma Structs14Enters()
    ensures |STRUCTS| == 19 && Enters(TRIE, EXTRAS, STRUCTS[14].legacy, 0)
  {
    RootNumbers();
    EntersByCode(TRIE, EXTRAS, ROOT_NUMBERS, STRUCTS[14].legacy, 0, [CODEX], Go(12123237, Stop));
  }

  lemma Structs15Enters()
    ensures |STRUCTS| == 19 && Enters(TRIE, EXTRAS, STRUCTS[15].legacy, 0)
  {
    RootNumbers();
    EntersByCode(TRIE, EXTRAS, ROOT_NUMBERS, STRUCTS[15].legacy, 0, [CODEX_HEADER_DEFAULTS], Go(45677044, Stop));
  }

  lemma Structs16Enters()
    ensures |STRUCTS| == 19 && Enters(TRIE, EXTRAS, STRUCTS[16].legacy, 0)
  {
    RootNumbers();
    EntersByCode(TRIE, EXTRAS, ROOT_NUMBERS, STRUCTS[16].legacy, 0, [CLAUDE], Go(14217956, Stop));
  }

  lemma Structs17Enters()
    ensures |STRUCTS| == 19 && Enters(TRIE, EXTRAS, STRUCTS[17].legacy, 0)
  {
    RootNumbers();
    EntersByCode(TRIE, EXTRAS, ROOT_NUMBERS, STRUCTS[17].legacy, 0, [CLAUDE_HEADER_DEFAULTS], Go(47774196, Stop));
  }

  lemma Structs18Enters()
    ensures |STRUCTS| == 19 && Enters(TRIE, EXTRAS, STRUCTS[18].legacy, 0)
  {
    RootNumbers();
    EntersByCode(TRIE, EXTRAS, ROOT_NUMBERS, STRUCTS[18].legacy, 0, [PAYLOAD], Go(16527969, Stop));
  }

  lemma StructsEnter0()
    ensures |STRUCTS| == 19 && forall k | 0 <= k < 5 :: Enters(TRIE, EXTRAS, STRUCTS[k].legacy, 0)
  {
    Structs0Enters();
    Structs1Enters();
    Structs2Enters();
    Structs3Enters();
    Structs4Enters();
  }

  lemma StructsEnter1()
    ensures |STRUCTS| == 19 && forall k | 5 <= k < 10 :: Enters(TRIE, EXTRAS, STRUCTS[k].legacy, 0)
  {
    Structs5Enters();
    Structs6Enters();
    Structs7Enters();
    Structs8Enters();
    Structs9Enters();
  }

  lemma StructsEnter2()
    ensures |STRUCTS| == 19 && forall k | 10 <= k < 15 :: Enters(TRIE, EXTRAS, STRUCTS[k].legacy, 0)
  {
    Structs10Enters();
    Structs11Enters();
    Structs12Enters();
    Structs13Enters();
    Structs14Enters();
  }

  lemma StructsEnter3()
    ensures |STRUCTS| == 19 && forall k | 15 <= k < 19 :: Enters(TRIE, EXTRAS, STRUCTS[k].legacy, 0)
  {
    Structs15Enters();
    Structs16Enters();
    Structs17Enters();
    Structs18Enters();
  }

  lemma SharedStructs0Enters()
    ensures |SHARED_STRUCTS| == 4 && Enters(TRIE, EXTRAS, SHARED_STRUCTS[0].legacy, 2)
  {
    RootNumbers();
    SharedPlaceNoExtra();
    assert SHARED_STRUCTS[0].legacy[..2] == [OAUTH, PROVIDERS];
    EntersByCode(TRIE, EXTRAS, ROOT_NUMBERS, SHARED_STRUCTS[0].legacy, 2, [OAUTH, PROVIDERS, CLAUDE], Go(12317812,
      Go(20724210, Go(14217956, Stop))));
  }

  lemma SharedStructs1Enters()
    ensures |SHARED_STRUCTS| == 4 && Enters(TRIE, EXTRAS, SHARED_STRUCTS[1].legacy, 2)
  {
    RootNumbers();
    SharedPlaceNoExtra();
    assert SHARED_STRUCTS[1].legacy[..2] == [OAUTH, PROVIDERS];
    EntersByCode(TRIE, EXTRAS, ROOT_NUMBERS, SHARED_STRUCTS[1].legacy, 2, [OAUTH, PROVIDERS, CLAUDE], Go(12317812,
      Go(20724210, Go(14217956, Stop))));
  }

  lemma SharedStructs2Enters()
    ensures |SHARED_STRUCTS| == 4 && Enters(TRIE, EXTRAS, SHARED_STRUCTS[2].legacy, 2)
  {
    RootNumbers();
    SharedPlaceNoExtra();
    assert SHARED_STRUCTS[2].legacy[..2] == [OAUTH, PROVIDERS];
    EntersByCode(TRIE, EXTRAS, ROOT_NUMBERS, SHARED_STRUCTS[2].legacy, 2, [OAUTH, PROVIDERS, CLAUDE], Go(12317812,
      Go(20724210, Go(14217956, Stop))));
  }

  lemma SharedStructs3Enters()
    ensures |SHARED_STRUCTS| == 4 && Enters(TRIE, EXTRAS, SHARED_STRUCTS[3].legacy, 2)
  {
    RootNumbers();
    SharedPlaceNoExtra();
    assert SHARED_STRUCTS[3].legacy[..2] == [OAUTH, PROVIDERS];
    EntersByCode(TRIE, EXTRAS, ROOT_NUMBERS, SHARED_STRUCTS[3].legacy, 2, [OAUTH, PROVIDERS, XAI], Go(12317812,
      Go(20724210, Go(8271073, Stop))));
  }

  lemma SharedStructsEnter0()
    ensures |SHARED_STRUCTS| == 4 && forall k | 0 <= k < 4 :: Enters(TRIE, EXTRAS, SHARED_STRUCTS[k].legacy, 2)
  {
    SharedStructs0Enters();
    SharedStructs1Enters();
    SharedStructs2Enters();
    SharedStructs3Enters();
  }

  // ---- the real table -----------------------------------------------------------------

  /** The tables of the configuration. */
  ghost predicate IsReal(t: Table) {
    && t.aliases == ALIASES && t.fields == FIELDS && t.structs == STRUCTS && t.sharedStructs == SHARED_STRUCTS
    && t.families == FAMILIES && t.shared == GROUP_FIELDS && t.known == KnownBy(t.Moves() + t.structs, EXTRAS)
  }

  lemma StructsFit()
    ensures |STRUCTS| == 19 && Entered(TRIE, STRUCTS, EXTRAS, 0)
  {
    Structs0Fit();
    Structs1Fit();
    Structs2Fit();
    Structs3Fit();
    Structs4Fit();
    Structs5Fit();
    Structs6Fit();
    Structs7Fit();
    Structs8Fit();
    Structs9Fit();
    StructsEnter0();
    StructsEnter1();
    StructsEnter2();
    StructsEnter3();
  }

  lemma SharedStructsFit()
    ensures |SHARED_STRUCTS| == 4 && Entered(TRIE, SHARED_STRUCTS, EXTRAS, 2)
    ensures forall i | 0 <= i < |SHARED_STRUCTS| :: [OAUTH, PROVIDERS] <= SHARED_STRUCTS[i].legacy
  {
    SharedStructs0Fit();
    SharedStructs1Fit();
    SharedStructsEnter0();
  }

  lemma FamilyPlaces()
    ensures forall j, k | 0 <= j < k < |FAMILIES| :: FAMILIES[j].move.current != FAMILIES[k].move.current
  {
    assert Weigh(FAMILIES[0].move.current[1]) == 14284014;
    assert Weigh(FAMILIES[1].move.current[1]) == 26900974;
    assert Weigh(FAMILIES[2].move.current[1]) == 14531685;
    assert Weigh(FAMILIES[3].move.current[1]) == 12123237;
    assert Weigh(FAMILIES[4].move.current[1]) == 14217956;
    assert Weigh(FAMILIES[5].move.current[1]) == 8271073;
    assert Weigh(FAMILIES[6].move.current[1]) == 10186996;
    assert Weigh(FAMILIES[7].move.current[1]) == 43777268;
  }

  lemma ApiKeysMoved()
    ensures 9 < |FIELDS| && FIELDS[9].legacy == API_KEYS
    ensures 73 < |FIELDS| && [OAUTH, PROVIDERS] < FIELDS[73].current
  {
  }

  lemma VersionMarked()
    ensures IsLeaf(TRIE, VERSION, New(1000)) && TRIE.Branch?
  {
    assert Weighs(VERSION, Go(30996335, Stop));
    AtWeighed(TRIE, VERSION, Go(30996335, Stop));
  }

  lemma RealAliases(t: Table)
    requires t.aliases == ALIASES
    ensures MovesOk(TRIE, t.aliases, 0) && |t.aliases| == 21
  {
    AliasesOk();
  }

  lemma RealFields(t: Table)
    requires t.fields == FIELDS
    ensures FieldsOk(TRIE, t.fields, 21) && |t.fields| == 124 && t.fields[9].legacy == API_KEYS
    ensures [OAUTH, PROVIDERS] < t.fields[73].current
  {
    FieldsAllOk();
    ApiKeysMoved();
  }

  lemma RealStructs(t: Table)
    requires t.structs == STRUCTS && t.sharedStructs == SHARED_STRUCTS
    ensures Entered(TRIE, t.structs, EXTRAS, 0) && Entered(TRIE, t.sharedStructs, EXTRAS, 2)
    ensures forall i | 0 <= i < |t.sharedStructs| :: [OAUTH, PROVIDERS] <= t.sharedStructs[i].legacy
  {
    StructsFit();
    SharedStructsFit();
  }

  lemma RealFamilies(t: Table)
    requires t.families == FAMILIES
    ensures forall k | 0 <= k < |t.families| :: FamilyOk(TRIE, t.families[k], 145 + k)
    ensures forall j, k | 0 <= j < k < |t.families| :: t.families[j].move.current != t.families[k].move.current
  {
    FamiliesOk();
    FamilyPlaces();
  }

  lemma ExtraPaths(q: Path)
    requires q in EXTRAS
    ensures q == [] || q == [MODELS] || q == [CLIENT] || q == [CLIENT, CODEX] || q == [CLIENT, CODEX, WEB_SEARCH_RESULT_CACHE]
         || q == [PLUGINS] || q == [QUOTA_EXCEEDED] || q == [ROUTING] || q == [ROUTING, QUOTA_DRAIN]
  {
  }

  /** No leaf stands where more keys are permitted. */
  lemma ExtrasNoLeaf()
    ensures ExtrasFit(TRIE, EXTRAS)
  {
    RootExtras();
    assert Weighs([MODELS], Go(14383596, Stop));
    OutsideWeighed(TRIE, [MODELS], Go(14383596, Stop));
    assert Weighs([CLIENT], Go(14219886, Stop));
    AtWeighed(TRIE, [CLIENT], Go(14219886, Stop));
    assert Weighs([CLIENT, CODEX], Go(14219886, Go(12123237, Stop)));
    AtWeighed(TRIE, [CLIENT, CODEX], Go(14219886, Go(12123237, Stop)));
    assert Weighs([CLIENT, CODEX, WEB_SEARCH_RESULT_CACHE], Go(14219886, Go(12123237, Go(50197224, Stop))));
    OutsideWeighed(TRIE, [CLIENT, CODEX, WEB_SEARCH_RESULT_CACHE], Go(14219886, Go(12123237, Go(50197224,
      Stop))));
    assert Weighs([PLUGINS], Go(16529902, Stop));
    OutsideWeighed(TRIE, [PLUGINS], Go(16529902, Stop));
    assert Weighs([QUOTA_EXCEEDED], Go(31224421, Stop));
    AtWeighed(TRIE, [QUOTA_EXCEEDED], Go(31224421, Stop));
    assert Weighs([ROUTING], Go(16561134, Stop));
    AtWeighed(TRIE, [ROUTING], Go(16561134, Stop));
    assert Weighs([ROUTING, QUOTA_DRAIN], Go(16561134, Go(24934249, Stop)));
    OutsideWeighed(TRIE, [ROUTING, QUOTA_DRAIN], Go(16561134, Go(24934249, Stop)));
    forall q | q in EXTRAS ensures NoLeaf(TRIE, q) { ExtraPaths(q); }
  }

  /** Main result: what the layout rewrite relies on holds of the real tables, every row of them. */
  lemma RealTableSeparated(t: Table)
    requires IsReal(t)
    ensures Separated(t)
  {
    RealAliases(t);
    RealFields(t);
    RealStructs(t);
    RealFamilies(t);
    VersionMarked();
    ExtrasNoLeaf();
    RootExtras();
    RowsSeparated(TRIE, t, New(1000), EXTRAS, [OAUTH, PROVIDERS], 73, 9);
  }

  lemma RealRowsChecked(t: Table)
    requires IsReal(t)
    ensures Checked(TRIE, t) && |t.Moves()| == 145 && |t.families| == 8
  {
    RealAliases(t);
    RealFields(t);
    RealStructs(t);
    RealFamilies(t);
    FamiliesOk();
    VersionMarked();
    RowsChecked(TRIE, t, EXTRAS, 2, 9);
  }

  lemma AllowMarked()
    ensures IsLeaf(TRIE, PrivateIps.ALLOW, Old(2000))
  {
    assert Weighs(PrivateIps.ALLOW, Go(12123237, Go(35339489, Go(51935728, Stop))));
    AtWeighed(TRIE, PrivateIps.ALLOW, Go(12123237, Go(35339489, Go(51935728, Stop))));
  }

  /** Where the tables move the setting that the deprecated switch stands for. */
  lemma RelayRow(t: Table)
    requires t.fields == FIELDS
    ensures |t.fields| == 124 && t.fields[90] == Move(PrivateIps.DISABLE, PrivateIps.V8_DISABLE)
  {
    FieldsAllOk();
  }

  lemma AliasPlaces(t: Table)
    requires t.aliases == ALIASES
    ensures |t.aliases| == 21 && forall i | 0 <= i < 21 :: [UPSTREAM] <= t.aliases[i].current || [CLIENT] <= t.aliases[i].current
  {
    AliasesOk();
  }

  lemma SharedPlaces(t: Table)
    requires t.sharedStructs == SHARED_STRUCTS
    ensures forall k | 0 <= k < |t.sharedStructs| ::
      [OAUTH] <= t.sharedStructs[k].legacy && [UPSTREAM] <= t.sharedStructs[k].current
  {
  }

  lemma SectionsDiffer()
    ensures OAUTH != CLIENT && OAUTH != UPSTREAM && CODEX != OAUTH && CODEX != UPSTREAM
  {
    assert Weigh(OAUTH) == 12317812 && Weigh(CLIENT) == 14219886 && Weigh(UPSTREAM) == 18708193 && Weigh(CODEX) == 12123237;
  }

  lemma CodexContainer(t: Table)
    requires t.structs == STRUCTS
    ensures |t.structs| > 13 && t.structs[13].legacy == [CODEX]
  {
    StructsFit();
  }

  lemma FirstKeyDiffers(p: Path, q: Path, k: string)
    requires [k] <= p && q != [] && q[0] != k
    ensures !Comparable(p, q)
  {
    assert p[0] == [k][0];
  }

  /** Main result: the real tables move the deprecated switch's setting as PrivateIps relies on. */
  lemma RealRelayMoved(t: Table)
    requires IsReal(t)
    ensures PrivateIps.RelayMoved(t, 90)
  {
    RealRowsChecked(t);
    AllowMarked();
    OwnLeafBeside(TRIE, t, PrivateIps.ALLOW, 2000);
    RelayRow(t);
    AliasPlaces(t);
    SharedPlaces(t);
    SectionsDiffer();
    CodexContainer(t);
    RelayBeside(t);
  }

  lemma RelayBeside(t: Table)
    requires |t.aliases| == 21 && |t.fields| == 124
    requires t.fields[90] == Move(PrivateIps.DISABLE, PrivateIps.V8_DISABLE)
    requires forall i | 0 <= i < |t.Moves()| ::
      !Comparable(t.Moves()[i].legacy, PrivateIps.ALLOW) && !Comparable(t.Moves()[i].current, PrivateIps.ALLOW)
    requires forall k | 0 <= k < |t.families| ::
      !Comparable(t.families[k].move.legacy, PrivateIps.ALLOW) && !Comparable(t.families[k].move.current, PrivateIps.ALLOW)
    requires forall k | 0 <= k < |t.Containers()| ::
      !(PrivateIps.ALLOW <= t.Containers()[k].legacy) && !(PrivateIps.ALLOW <= t.Containers()[k].current)
    requires !Comparable(API_KEYS, PrivateIps.ALLOW)
    requires forall i | 0 <= i < 21 :: [UPSTREAM] <= t.aliases[i].current || [CLIENT] <= t.aliases[i].current
    requires forall k | 0 <= k < |t.sharedStructs| ::
      [OAUTH] <= t.sharedStructs[k].legacy && [UPSTREAM] <= t.sharedStructs[k].current
    requires OAUTH != CLIENT && OAUTH != UPSTREAM && CODEX != OAUTH && CODEX != UPSTREAM
    requires |t.structs| > 13 && t.structs[13].legacy == [CODEX]
    ensures PrivateIps.RelayMoved(t, 90)
  {
    forall i | 0 <= i < |t.aliases| ensures t.aliases[i].current != PrivateIps.V8_DISABLE {
      assert [UPSTREAM] <= t.aliases[i].current ==> t.aliases[i].current[0] == UPSTREAM;
      assert [CLIENT] <= t.aliases[i].current ==> t.aliases[i].current[0] == CLIENT;
    }
    forall i | 0 <= i < |t.aliases|
      ensures !Comparable(t.aliases[i].legacy, PrivateIps.ALLOW) && !Comparable(t.aliases[i].current, PrivateIps.ALLOW)
    {
      assert t.Moves()[i] == t.aliases[i];
    }
    forall i | 0 <= i < |t.fields|
      ensures !Comparable(t.fields[i].legacy, PrivateIps.ALLOW) && !Comparable(t.fields[i].current, PrivateIps.ALLOW)
    {
      assert t.Moves()[|t.aliases| + i] == t.fields[i];
    }
    forall k | 0 <= k < |t.sharedStructs|
      ensures !Comparable(t.sharedStructs[k].legacy, PrivateIps.ALLOW)
      ensures !Comparable(t.sharedStructs[k].current, PrivateIps.ALLOW)
    {
      FirstKeyDiffers(t.sharedStructs[k].legacy, PrivateIps.ALLOW, OAUTH);
      FirstKeyDiffers(t.sharedStructs[k].current, PrivateIps.ALLOW, UPSTREAM);
    }
    assert t.Containers()[13] == t.structs[13] && t.structs[13] in t.Containers();
  }
}
